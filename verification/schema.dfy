/**
 * The record shape of the production schedule: the 38 positional columns of the
 * spreadsheet (main.py:30-35), the 28 status flags the enrichment loop sets
 * (main.py:70-97), and the keys `_id` and `config` (main.py:66, main.py:134).
 *
 * Field names are enumerations, so two different fields can never be confused;
 * `ColumnName`, `FlagName` and `FieldName` give the exact strings the program
 * uses as dictionary keys.
 */
module Schema {
  import opened Wrappers

  /** One column of the declared column list. */
  datatype Column =
    | Machine | St1 | St2 | St3 | St4 | EngineMerge | Bay2 | Bay3 | Bay4 | Bay5
    | Bay6 | Bay7 | Bay8 | Bay9 | Bay10 | Test1 | Test2 | Bay14 | Bay15 | Bay16
    | Bay17 | Bay18 | Bay19 | Bay19Sap | LeavingDate | TerraTrack | Duals | FourWd
    | Mtu | SalesOrder | ProductionOrder | Sequenz | Ecn | Released | Printed | Space
    | Month | Week

  /** The declared column list, in spreadsheet order (main.py:30-35). */
  const Columns: seq<Column> := [
    Machine, St1, St2, St3, St4, EngineMerge, Bay2, Bay3, Bay4, Bay5, Bay6, Bay7, Bay8,
    Bay9, Bay10, Test1, Test2, Bay14, Bay15, Bay16, Bay17, Bay18, Bay19, Bay19Sap,
    LeavingDate, TerraTrack, Duals, FourWd, Mtu, SalesOrder, ProductionOrder, Sequenz,
    Ecn, Released, Printed, Space, Month, Week
  ]

  /** Position of a column in the declared list. */
  function ColumnIndex(c: Column): nat
  {
    match c
    case Machine => 0
    case St1 => 1
    case St2 => 2
    case St3 => 3
    case St4 => 4
    case EngineMerge => 5
    case Bay2 => 6
    case Bay3 => 7
    case Bay4 => 8
    case Bay5 => 9
    case Bay6 => 10
    case Bay7 => 11
    case Bay8 => 12
    case Bay9 => 13
    case Bay10 => 14
    case Test1 => 15
    case Test2 => 16
    case Bay14 => 17
    case Bay15 => 18
    case Bay16 => 19
    case Bay17 => 20
    case Bay18 => 21
    case Bay19 => 22
    case Bay19Sap => 23
    case LeavingDate => 24
    case TerraTrack => 25
    case Duals => 26
    case FourWd => 27
    case Mtu => 28
    case SalesOrder => 29
    case ProductionOrder => 30
    case Sequenz => 31
    case Ecn => 32
    case Released => 33
    case Printed => 34
    case Space => 35
    case Month => 36
    case Week => 37
  }

  /** The string key the program uses for a column. */
  function ColumnName(c: Column): string
  {
    match c
    case Machine => "machine"
    case St1 => "st_1"
    case St2 => "st_2"
    case St3 => "st_3"
    case St4 => "st_4"
    case EngineMerge => "engine_merge"
    case Bay2 => "bay_2"
    case Bay3 => "bay_3"
    case Bay4 => "bay_4"
    case Bay5 => "bay_5"
    case Bay6 => "bay_6"
    case Bay7 => "bay_7"
    case Bay8 => "bay_8"
    case Bay9 => "bay_9"
    case Bay10 => "bay_10"
    case Test1 => "test_1"
    case Test2 => "test_2"
    case Bay14 => "bay_14"
    case Bay15 => "bay_15"
    case Bay16 => "bay_16"
    case Bay17 => "bay_17"
    case Bay18 => "bay_18"
    case Bay19 => "bay_19"
    case Bay19Sap => "bay_19_sap"
    case LeavingDate => "leaving_date"
    case TerraTrack => "terraTrack"
    case Duals => "duals"
    case FourWd => "4wd"
    case Mtu => "mtu"
    case SalesOrder => "salesOrder"
    case ProductionOrder => "productionOrder"
    case Sequenz => "sequenz"
    case Ecn => "ecn"
    case Released => "released"
    case Printed => "printed"
    case Space => "space"
    case Month => "month"
    case Week => "week"
  }

  /** `ColumnIndex` names each column's position in the declared list; since the 38
      columns land on 38 different positions, every column is listed exactly once. */
  lemma ColumnsIndexed()
    ensures |Columns| == 38
    ensures forall c: Column :: ColumnIndex(c) < |Columns| && Columns[ColumnIndex(c)] == c
  {
    forall c: Column
      ensures ColumnIndex(c) < |Columns| && Columns[ColumnIndex(c)] == c
    {
      match c
      case Machine => assert Columns[0] == Machine;
      case St1 => assert Columns[1] == St1;
      case St2 => assert Columns[2] == St2;
      case St3 => assert Columns[3] == St3;
      case St4 => assert Columns[4] == St4;
      case EngineMerge => assert Columns[5] == EngineMerge;
      case Bay2 => assert Columns[6] == Bay2;
      case Bay3 => assert Columns[7] == Bay3;
      case Bay4 => assert Columns[8] == Bay4;
      case Bay5 => assert Columns[9] == Bay5;
      case Bay6 => assert Columns[10] == Bay6;
      case Bay7 => assert Columns[11] == Bay7;
      case Bay8 => assert Columns[12] == Bay8;
      case Bay9 => assert Columns[13] == Bay9;
      case Bay10 => assert Columns[14] == Bay10;
      case Test1 => assert Columns[15] == Test1;
      case Test2 => assert Columns[16] == Test2;
      case Bay14 => assert Columns[17] == Bay14;
      case Bay15 => assert Columns[18] == Bay15;
      case Bay16 => assert Columns[19] == Bay16;
      case Bay17 => assert Columns[20] == Bay17;
      case Bay18 => assert Columns[21] == Bay18;
      case Bay19 => assert Columns[22] == Bay19;
      case Bay19Sap => assert Columns[23] == Bay19Sap;
      case LeavingDate => assert Columns[24] == LeavingDate;
      case TerraTrack => assert Columns[25] == TerraTrack;
      case Duals => assert Columns[26] == Duals;
      case FourWd => assert Columns[27] == FourWd;
      case Mtu => assert Columns[28] == Mtu;
      case SalesOrder => assert Columns[29] == SalesOrder;
      case ProductionOrder => assert Columns[30] == ProductionOrder;
      case Sequenz => assert Columns[31] == Sequenz;
      case Ecn => assert Columns[32] == Ecn;
      case Released => assert Columns[33] == Released;
      case Printed => assert Columns[34] == Printed;
      case Space => assert Columns[35] == Space;
      case Month => assert Columns[36] == Month;
      case Week => assert Columns[37] == Week;
    }
  }

  /** One of the status flags the enrichment loop sets. */
  datatype StatusFlag =
    | ActiveList | ActiveEngine | ActiveBayFcb1 | ActiveBayFcb2 | ActiveBayRearAxle
    | ActiveBayThreshingFront | ActiveBayThreshing | ActiveBayFrontAxle | ActiveBay2
    | ActiveBay3 | ActiveBay4 | ActiveBay5 | ActiveBay6 | ActiveBay7 | ActiveBay8
    | ActiveBay9 | ActiveBay10 | ActiveTestBay1 | ActiveTestBay2 | ActiveTestBay3
    | ActiveTestBay4 | ActiveBay14 | ActiveBay15 | ActiveBay16 | ActiveBay17
    | ActiveBay18 | ActiveBay19 | ActiveBay19Sap

  /** The status flags in the order the enrichment loop assigns them (main.py:70-97). */
  const Flags: seq<StatusFlag> := [
    ActiveList, ActiveEngine, ActiveBayFcb1, ActiveBayFcb2, ActiveBayRearAxle,
    ActiveBayThreshingFront, ActiveBayThreshing, ActiveBayFrontAxle, ActiveBay2,
    ActiveBay3, ActiveBay4, ActiveBay5, ActiveBay6, ActiveBay7, ActiveBay8, ActiveBay9,
    ActiveBay10, ActiveTestBay1, ActiveTestBay2, ActiveTestBay3, ActiveTestBay4,
    ActiveBay14, ActiveBay15, ActiveBay16, ActiveBay17, ActiveBay18, ActiveBay19,
    ActiveBay19Sap
  ]

  /** The string key the program uses for a status flag. */
  function FlagName(f: StatusFlag): string
  {
    match f
    case ActiveList => "activeList"
    case ActiveEngine => "activeEngine"
    case ActiveBayFcb1 => "activeBayFCB_1"
    case ActiveBayFcb2 => "activeBayFCB_2"
    case ActiveBayRearAxle => "activeBayRearAxle"
    case ActiveBayThreshingFront => "activeBayThreshingFront"
    case ActiveBayThreshing => "activeBayThreshing"
    case ActiveBayFrontAxle => "activeBayFrontAxle"
    case ActiveBay2 => "activeBay_2"
    case ActiveBay3 => "activeBay_3"
    case ActiveBay4 => "activeBay_4"
    case ActiveBay5 => "activeBay_5"
    case ActiveBay6 => "activeBay_6"
    case ActiveBay7 => "activeBay_7"
    case ActiveBay8 => "activeBay_8"
    case ActiveBay9 => "activeBay_9"
    case ActiveBay10 => "activeBay_10"
    case ActiveTestBay1 => "activeTestBay_1"
    case ActiveTestBay2 => "activeTestBay_2"
    case ActiveTestBay3 => "activeTestBay_3"
    case ActiveTestBay4 => "activeTestBay_4"
    case ActiveBay14 => "activeBay_14"
    case ActiveBay15 => "activeBay_15"
    case ActiveBay16 => "activeBay_16"
    case ActiveBay17 => "activeBay_17"
    case ActiveBay18 => "activeBay_18"
    case ActiveBay19 => "activeBay_19"
    case ActiveBay19Sap => "activeBay_19_sap"
  }

  /** The value every enrichment assigns to a flag: the list and engine flags are active, every bay and test-bay flag is not. */
  function FlagDefault(f: StatusFlag): string
  {
    if f == ActiveList || f == ActiveEngine then "true" else "false"
  }

  /** Position of a flag in `Flags`. */
  function FlagIndex(f: StatusFlag): nat
  {
    match f
    case ActiveList => 0
    case ActiveEngine => 1
    case ActiveBayFcb1 => 2
    case ActiveBayFcb2 => 3
    case ActiveBayRearAxle => 4
    case ActiveBayThreshingFront => 5
    case ActiveBayThreshing => 6
    case ActiveBayFrontAxle => 7
    case ActiveBay2 => 8
    case ActiveBay3 => 9
    case ActiveBay4 => 10
    case ActiveBay5 => 11
    case ActiveBay6 => 12
    case ActiveBay7 => 13
    case ActiveBay8 => 14
    case ActiveBay9 => 15
    case ActiveBay10 => 16
    case ActiveTestBay1 => 17
    case ActiveTestBay2 => 18
    case ActiveTestBay3 => 19
    case ActiveTestBay4 => 20
    case ActiveBay14 => 21
    case ActiveBay15 => 22
    case ActiveBay16 => 23
    case ActiveBay17 => 24
    case ActiveBay18 => 25
    case ActiveBay19 => 26
    case ActiveBay19Sap => 27
  }

  /** `Flags` lists every status flag. */
  lemma FlagsComplete()
    ensures |Flags| == 28
    ensures forall f: StatusFlag :: FlagIndex(f) < |Flags| && Flags[FlagIndex(f)] == f
  {
    forall f: StatusFlag
      ensures FlagIndex(f) < |Flags| && Flags[FlagIndex(f)] == f
    {
      match f
      case ActiveList => assert Flags[0] == ActiveList;
      case ActiveEngine => assert Flags[1] == ActiveEngine;
      case ActiveBayFcb1 => assert Flags[2] == ActiveBayFcb1;
      case ActiveBayFcb2 => assert Flags[3] == ActiveBayFcb2;
      case ActiveBayRearAxle => assert Flags[4] == ActiveBayRearAxle;
      case ActiveBayThreshingFront => assert Flags[5] == ActiveBayThreshingFront;
      case ActiveBayThreshing => assert Flags[6] == ActiveBayThreshing;
      case ActiveBayFrontAxle => assert Flags[7] == ActiveBayFrontAxle;
      case ActiveBay2 => assert Flags[8] == ActiveBay2;
      case ActiveBay3 => assert Flags[9] == ActiveBay3;
      case ActiveBay4 => assert Flags[10] == ActiveBay4;
      case ActiveBay5 => assert Flags[11] == ActiveBay5;
      case ActiveBay6 => assert Flags[12] == ActiveBay6;
      case ActiveBay7 => assert Flags[13] == ActiveBay7;
      case ActiveBay8 => assert Flags[14] == ActiveBay8;
      case ActiveBay9 => assert Flags[15] == ActiveBay9;
      case ActiveBay10 => assert Flags[16] == ActiveBay10;
      case ActiveTestBay1 => assert Flags[17] == ActiveTestBay1;
      case ActiveTestBay2 => assert Flags[18] == ActiveTestBay2;
      case ActiveTestBay3 => assert Flags[19] == ActiveTestBay3;
      case ActiveTestBay4 => assert Flags[20] == ActiveTestBay4;
      case ActiveBay14 => assert Flags[21] == ActiveBay14;
      case ActiveBay15 => assert Flags[22] == ActiveBay15;
      case ActiveBay16 => assert Flags[23] == ActiveBay16;
      case ActiveBay17 => assert Flags[24] == ActiveBay17;
      case ActiveBay18 => assert Flags[25] == ActiveBay18;
      case ActiveBay19 => assert Flags[26] == ActiveBay19;
      case ActiveBay19Sap => assert Flags[27] == ActiveBay19Sap;
    }
  }

  /** The column a string key names, if any: the inverse of `ColumnName`. */
  function ColumnOf(name: string): Option<Column>
  {
    match name
    case "machine" => Some(Machine)
    case "st_1" => Some(St1)
    case "st_2" => Some(St2)
    case "st_3" => Some(St3)
    case "st_4" => Some(St4)
    case "engine_merge" => Some(EngineMerge)
    case "bay_2" => Some(Bay2)
    case "bay_3" => Some(Bay3)
    case "bay_4" => Some(Bay4)
    case "bay_5" => Some(Bay5)
    case "bay_6" => Some(Bay6)
    case "bay_7" => Some(Bay7)
    case "bay_8" => Some(Bay8)
    case "bay_9" => Some(Bay9)
    case "bay_10" => Some(Bay10)
    case "test_1" => Some(Test1)
    case "test_2" => Some(Test2)
    case "bay_14" => Some(Bay14)
    case "bay_15" => Some(Bay15)
    case "bay_16" => Some(Bay16)
    case "bay_17" => Some(Bay17)
    case "bay_18" => Some(Bay18)
    case "bay_19" => Some(Bay19)
    case "bay_19_sap" => Some(Bay19Sap)
    case "leaving_date" => Some(LeavingDate)
    case "terraTrack" => Some(TerraTrack)
    case "duals" => Some(Duals)
    case "4wd" => Some(FourWd)
    case "mtu" => Some(Mtu)
    case "salesOrder" => Some(SalesOrder)
    case "productionOrder" => Some(ProductionOrder)
    case "sequenz" => Some(Sequenz)
    case "ecn" => Some(Ecn)
    case "released" => Some(Released)
    case "printed" => Some(Printed)
    case "space" => Some(Space)
    case "month" => Some(Month)
    case "week" => Some(Week)
    case _ => None
  }

  /** Every column is recovered from its key, so no two columns share a key. */
  lemma ColumnNamesRoundTrip()
    ensures forall c: Column :: ColumnOf(ColumnName(c)) == Some(c)
  {
    forall c: Column
      ensures ColumnOf(ColumnName(c)) == Some(c)
    {
      match c
      case Machine => assert ColumnOf("machine") == Some(Machine);
      case St1 => assert ColumnOf("st_1") == Some(St1);
      case St2 => assert ColumnOf("st_2") == Some(St2);
      case St3 => assert ColumnOf("st_3") == Some(St3);
      case St4 => assert ColumnOf("st_4") == Some(St4);
      case EngineMerge => assert ColumnOf("engine_merge") == Some(EngineMerge);
      case Bay2 => assert ColumnOf("bay_2") == Some(Bay2);
      case Bay3 => assert ColumnOf("bay_3") == Some(Bay3);
      case Bay4 => assert ColumnOf("bay_4") == Some(Bay4);
      case Bay5 => assert ColumnOf("bay_5") == Some(Bay5);
      case Bay6 => assert ColumnOf("bay_6") == Some(Bay6);
      case Bay7 => assert ColumnOf("bay_7") == Some(Bay7);
      case Bay8 => assert ColumnOf("bay_8") == Some(Bay8);
      case Bay9 => assert ColumnOf("bay_9") == Some(Bay9);
      case Bay10 => assert ColumnOf("bay_10") == Some(Bay10);
      case Test1 => assert ColumnOf("test_1") == Some(Test1);
      case Test2 => assert ColumnOf("test_2") == Some(Test2);
      case Bay14 => assert ColumnOf("bay_14") == Some(Bay14);
      case Bay15 => assert ColumnOf("bay_15") == Some(Bay15);
      case Bay16 => assert ColumnOf("bay_16") == Some(Bay16);
      case Bay17 => assert ColumnOf("bay_17") == Some(Bay17);
      case Bay18 => assert ColumnOf("bay_18") == Some(Bay18);
      case Bay19 => assert ColumnOf("bay_19") == Some(Bay19);
      case Bay19Sap => assert ColumnOf("bay_19_sap") == Some(Bay19Sap);
      case LeavingDate => assert ColumnOf("leaving_date") == Some(LeavingDate);
      case TerraTrack => assert ColumnOf("terraTrack") == Some(TerraTrack);
      case Duals => assert ColumnOf("duals") == Some(Duals);
      case FourWd => assert ColumnOf("4wd") == Some(FourWd);
      case Mtu => assert ColumnOf("mtu") == Some(Mtu);
      case SalesOrder => assert ColumnOf("salesOrder") == Some(SalesOrder);
      case ProductionOrder => assert ColumnOf("productionOrder") == Some(ProductionOrder);
      case Sequenz => assert ColumnOf("sequenz") == Some(Sequenz);
      case Ecn => assert ColumnOf("ecn") == Some(Ecn);
      case Released => assert ColumnOf("released") == Some(Released);
      case Printed => assert ColumnOf("printed") == Some(Printed);
      case Space => assert ColumnOf("space") == Some(Space);
      case Month => assert ColumnOf("month") == Some(Month);
      case Week => assert ColumnOf("week") == Some(Week);
    }
  }

  /** The status flag a string key names, if any: the inverse of `FlagName`. */
  function FlagOf(name: string): Option<StatusFlag>
  {
    match name
    case "activeList" => Some(ActiveList)
    case "activeEngine" => Some(ActiveEngine)
    case "activeBayFCB_1" => Some(ActiveBayFcb1)
    case "activeBayFCB_2" => Some(ActiveBayFcb2)
    case "activeBayRearAxle" => Some(ActiveBayRearAxle)
    case "activeBayThreshingFront" => Some(ActiveBayThreshingFront)
    case "activeBayThreshing" => Some(ActiveBayThreshing)
    case "activeBayFrontAxle" => Some(ActiveBayFrontAxle)
    case "activeBay_2" => Some(ActiveBay2)
    case "activeBay_3" => Some(ActiveBay3)
    case "activeBay_4" => Some(ActiveBay4)
    case "activeBay_5" => Some(ActiveBay5)
    case "activeBay_6" => Some(ActiveBay6)
    case "activeBay_7" => Some(ActiveBay7)
    case "activeBay_8" => Some(ActiveBay8)
    case "activeBay_9" => Some(ActiveBay9)
    case "activeBay_10" => Some(ActiveBay10)
    case "activeTestBay_1" => Some(ActiveTestBay1)
    case "activeTestBay_2" => Some(ActiveTestBay2)
    case "activeTestBay_3" => Some(ActiveTestBay3)
    case "activeTestBay_4" => Some(ActiveTestBay4)
    case "activeBay_14" => Some(ActiveBay14)
    case "activeBay_15" => Some(ActiveBay15)
    case "activeBay_16" => Some(ActiveBay16)
    case "activeBay_17" => Some(ActiveBay17)
    case "activeBay_18" => Some(ActiveBay18)
    case "activeBay_19" => Some(ActiveBay19)
    case "activeBay_19_sap" => Some(ActiveBay19Sap)
    case _ => None
  }

  /** No column key starts with the letter `a`, which starts every status flag key. */
  lemma ActiveIsNoColumn(name: string)
    requires |name| > 0 && name[0] == 'a'
    ensures ColumnOf(name) == None
  {
  }

  /** Every status flag is recovered from its key, and no flag key is a column key. */
  lemma FlagNamesRoundTrip()
    ensures forall f: StatusFlag :: FlagOf(FlagName(f)) == Some(f) && ColumnOf(FlagName(f)) == None
  {
    forall f: StatusFlag
      ensures FlagOf(FlagName(f)) == Some(f) && ColumnOf(FlagName(f)) == None
    {
      ActiveIsNoColumn(FlagName(f));
      match f
      case ActiveList => assert FlagOf("activeList") == Some(ActiveList);
      case ActiveEngine => assert FlagOf("activeEngine") == Some(ActiveEngine);
      case ActiveBayFcb1 => assert FlagOf("activeBayFCB_1") == Some(ActiveBayFcb1);
      case ActiveBayFcb2 => assert FlagOf("activeBayFCB_2") == Some(ActiveBayFcb2);
      case ActiveBayRearAxle => assert FlagOf("activeBayRearAxle") == Some(ActiveBayRearAxle);
      case ActiveBayThreshingFront => assert FlagOf("activeBayThreshingFront") == Some(ActiveBayThreshingFront);
      case ActiveBayThreshing => assert FlagOf("activeBayThreshing") == Some(ActiveBayThreshing);
      case ActiveBayFrontAxle => assert FlagOf("activeBayFrontAxle") == Some(ActiveBayFrontAxle);
      case ActiveBay2 => assert FlagOf("activeBay_2") == Some(ActiveBay2);
      case ActiveBay3 => assert FlagOf("activeBay_3") == Some(ActiveBay3);
      case ActiveBay4 => assert FlagOf("activeBay_4") == Some(ActiveBay4);
      case ActiveBay5 => assert FlagOf("activeBay_5") == Some(ActiveBay5);
      case ActiveBay6 => assert FlagOf("activeBay_6") == Some(ActiveBay6);
      case ActiveBay7 => assert FlagOf("activeBay_7") == Some(ActiveBay7);
      case ActiveBay8 => assert FlagOf("activeBay_8") == Some(ActiveBay8);
      case ActiveBay9 => assert FlagOf("activeBay_9") == Some(ActiveBay9);
      case ActiveBay10 => assert FlagOf("activeBay_10") == Some(ActiveBay10);
      case ActiveTestBay1 => assert FlagOf("activeTestBay_1") == Some(ActiveTestBay1);
      case ActiveTestBay2 => assert FlagOf("activeTestBay_2") == Some(ActiveTestBay2);
      case ActiveTestBay3 => assert FlagOf("activeTestBay_3") == Some(ActiveTestBay3);
      case ActiveTestBay4 => assert FlagOf("activeTestBay_4") == Some(ActiveTestBay4);
      case ActiveBay14 => assert FlagOf("activeBay_14") == Some(ActiveBay14);
      case ActiveBay15 => assert FlagOf("activeBay_15") == Some(ActiveBay15);
      case ActiveBay16 => assert FlagOf("activeBay_16") == Some(ActiveBay16);
      case ActiveBay17 => assert FlagOf("activeBay_17") == Some(ActiveBay17);
      case ActiveBay18 => assert FlagOf("activeBay_18") == Some(ActiveBay18);
      case ActiveBay19 => assert FlagOf("activeBay_19") == Some(ActiveBay19);
      case ActiveBay19Sap => assert FlagOf("activeBay_19_sap") == Some(ActiveBay19Sap);
    }
  }

  /** A key of a schedule record. */
  datatype Field = Col(col: Column) | Id | Flag(flag: StatusFlag) | ConfigKey

  /** The string key the program uses for a record field. */
  function FieldName(k: Field): string
  {
    match k
    case Col(c) => ColumnName(c)
    case Id => "_id"
    case Flag(f) => FlagName(f)
    case ConfigKey => "config"
  }

  /** The field a string key names, if any: the inverse of `FieldName`. */
  function FieldOf(name: string): Option<Field>
  {
    if name == "_id" then Some(Id)
    else if name == "config" then Some(ConfigKey)
    else match ColumnOf(name)
      case Some(c) => Some(Col(c))
      case None =>
        match FlagOf(name)
        case Some(f) => Some(Flag(f))
        case None => None
  }

  /** Every field is recovered from its string key, so the keys of a record are pairwise
      different strings and writing them out as strings (main.py:168) loses nothing. */
  lemma FieldNamesRoundTrip()
    ensures forall k: Field :: FieldOf(FieldName(k)) == Some(k)
    ensures forall k, l: Field :: FieldName(k) == FieldName(l) ==> k == l
  {
    ColumnNamesRoundTrip();
    FlagNamesRoundTrip();
    forall k: Field
      ensures FieldOf(FieldName(k)) == Some(k)
    {
      match k
      case Col(c) =>
        assert ColumnOf(ColumnName(c)) == Some(c);
        assert FieldName(k) != "_id" && FieldName(k) != "config" by {
          assert ColumnOf("_id") == None && ColumnOf("config") == None;
        }
      case Id =>
      case Flag(f) =>
        assert FieldName(k) != "_id" && FieldName(k) != "config" by {
          assert FlagOf("_id") == None && FlagOf("config") == None;
        }
      case ConfigKey =>
    }
    forall k, l: Field | FieldName(k) == FieldName(l)
      ensures k == l
    {
      assert FieldOf(FieldName(k)) == Some(k);
    }
  }

  /** One entry of a machine configuration: a single-entry mapping `{key: value}`. */
  datatype Entry = Entry(key: string, value: string)

  /** A value of a schedule record: a cell or flag string, or the `config` list. */
  datatype Value = Str(text: string) | Entries(entries: seq<Entry>)

  /** A schedule record: the dictionary one spreadsheet row becomes. */
  type Record = map<Field, Value>

  /** The keys every normalised record has: one per declared column. */
  const ColumnFields: set<Field> := set c | c in Columns :: Col(c)

  /** The keys the enrichment loop writes when the `sequenz` guard holds. */
  const FlagFields: set<Field> := set f | f in Flags :: Flag(f)

  lemma FieldSets()
    ensures forall k: Field :: k in ColumnFields <==> k.Col?
    ensures forall k: Field :: k in FlagFields <==> k.Flag?
  {
    ColumnsIndexed();
    FlagsComplete();
    forall k: Field | k.Col? ensures k in ColumnFields {
      assert Columns[ColumnIndex(k.col)] == k.col;
    }
    forall k: Field | k.Flag? ensures k in FlagFields {
      assert Flags[FlagIndex(k.flag)] == k.flag;
    }
  }
}
