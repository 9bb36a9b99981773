/**
 * The two CSV export routes (app/api/export/users/route.js and
 * app/api/export/partners/route.js): the `format` switch and the column lists with
 * their getters, over `convertToCSV` of module CsvExport. Reading an export back gives
 * each record's cells as the getters promise them.
 */
module ExportColumns {
  import opened Wrappers
  import opened Strings
  import opened Json
  import opened CsvExport
  import CustomersTable
  import Supabase

  /** `new Date(v).toISOString().split('T')[0]`, supplied by the caller. */
  type IsoDay = Json -> string

  // ------------------------------------------------------------ getters

  /** `String(x)` of each array element as `Array.prototype.join` prints it: null and undefined as "". */
  function ElementTexts(items: seq<Json>): (r: seq<string>)
    ensures |r| == |items|
    ensures forall i :: 0 <= i < |items| ==> r[i] == CellText(items[i])
  {
    seq(|items|, i requires 0 <= i < |items| => CellText(items[i]))
  }

  /** `Array.isArray(v) ? v.join("; ") : v || ""` (liked sports, partner sports). */
  function SportsCell(v: Json): (r: Json)
    ensures v.Arr? ==> r == Str(Join(ElementTexts(v.items), "; "))
    ensures !v.Arr? && Truthy(v) ==> r == v
    ensures !v.Arr? && !Truthy(v) ==> r == Str("")
  {
    if v.Arr? then Str(Join(ElementTexts(v.items), "; ")) else Or(v, Str(""))
  }

  /** `Array.isArray(v) ? v.length : v || 0` (enrollments, turf bookings). */
  function CountCell(v: Json): (r: Json)
    ensures v.Arr? ==> r == Num(|v.items|)
    ensures !v.Arr? && Truthy(v) ==> r == v
    ensures !v.Arr? && !Truthy(v) ==> r == Num(0)
  {
    if v.Arr? then Num(|v.items|) else Or(v, Num(0))
  }

  /** `v ? isoDay(v) : ""` (joined date, created date). */
  function DateCell(v: Json, isoDay: IsoDay): (r: Json)
    ensures Truthy(v) ==> r == Str(isoDay(v))
    ensures !Truthy(v) ==> r == Str("")
  {
    if Truthy(v) then Str(isoDay(v)) else Str("")
  }

  /** `p.address?.city || p.city || ""`. */
  function CityCell(p: Json): (r: Json)
    ensures Truthy(Get(Get(p, "address"), "city")) ==> r == Get(Get(p, "address"), "city")
    ensures !Truthy(Get(Get(p, "address"), "city")) && Truthy(Get(p, "city")) ==> r == Get(p, "city")
    ensures !Truthy(Get(Get(p, "address"), "city")) && !Truthy(Get(p, "city")) ==> r == Str("")
  {
    Or(Or(Get(Get(p, "address"), "city"), Get(p, "city")), Str(""))
  }

  /** `p.verified ? "Yes" : "No"`. */
  function VerifiedCell(p: Json): (r: Json)
    ensures r == Str("Yes") <==> Truthy(Get(p, "verified"))
    ensures r == Str("Yes") || r == Str("No")
  {
    if Truthy(Get(p, "verified")) then Str("Yes") else Str("No")
  }

  /** `p.disabled ? "Disabled" : "Active"`. */
  function StatusCell(p: Json): (r: Json)
    ensures r == Str("Disabled") <==> Truthy(Get(p, "disabled"))
    ensures r == Str("Disabled") || r == Str("Active")
  {
    if Truthy(Get(p, "disabled")) then Str("Disabled") else Str("Active")
  }

  // ------------------------------------------------------------ column lists

  function LikedSportsOf(u: Json): Json { SportsCell(Get(u, "liked_sports")) }
  function EnrollmentsOf(u: Json): Json { CountCell(Get(u, "enrollments")) }
  function TurfBookingsOf(u: Json): Json { CountCell(Get(u, "turf_bookings")) }
  function SportsOf(p: Json): Json { SportsCell(Get(p, "sports")) }

  function UserColumns(isoDay: IsoDay): (r: seq<Column>)
    ensures |r| == 10
  {
    [ Column("name", "Name", None),
      Column("email", "Email", None),
      Column("phone", "Phone", None),
      Column("gender", "Gender", None),
      Column("liked_sports", "Liked Sports", Some(LikedSportsOf)),
      Column("city", "City", None),
      Column("state", "State", None),
      Column("enrollments", "Enrollments", Some(EnrollmentsOf)),
      Column("turf_bookings", "Turf Bookings", Some(TurfBookingsOf)),
      Column("created_at", "Joined Date", Some(u => DateCell(Get(u, "created_at"), isoDay))) ]
  }

  function PartnerColumns(isoDay: IsoDay): (r: seq<Column>)
    ensures |r| == 9
  {
    [ Column("name", "Name", None),
      Column("email", "Email", None),
      Column("whatsapp", "WhatsApp", None),
      Column("role", "Type", None),
      Column("sports", "Sports", Some(SportsOf)),
      Column("address", "City", Some(CityCell)),
      Column("verified", "Verified", Some(VerifiedCell)),
      Column("disabled", "Status", Some(StatusCell)),
      Column("created_at", "Created Date", Some(p => DateCell(Get(p, "created_at"), isoDay))) ]
  }

  // ------------------------------------------------------------ the routes

  /** What an export request answers: the CSV text, or status 400 for another format. */
  datatype ExportResponse = CsvBody(text: string) | UnsupportedFormat

  /** `searchParams.get("format") || "csv"`: an absent or empty parameter asks for CSV. */
  function RequestedFormat(format: Option<string>): (r: string)
    ensures format.None? ==> r == "csv"
    ensures format.Some? && format.value != [] ==> r == format.value
  {
    if format.Some? && format.value != [] then format.value else "csv"
  }

  /** `GET /api/export/users` over the fetched customers. */
  function ExportUsers(format: Option<string>, customers: seq<Json>, isoDay: IsoDay): (r: ExportResponse)
    ensures r.CsvBody? <==> RequestedFormat(format) == "csv"
    ensures r.CsvBody? ==> (r.text == [] <==> customers == [])
  {
    if RequestedFormat(format) == "csv" then CsvBody(ConvertToCsv(customers, UserColumns(isoDay)))
    else UnsupportedFormat
  }

  /** `GET /api/export/partners` over the fetched partners. */
  function ExportPartners(format: Option<string>, partners: seq<Json>, isoDay: IsoDay): (r: ExportResponse)
    ensures r.CsvBody? <==> RequestedFormat(format) == "csv"
    ensures r.CsvBody? ==> (r.text == [] <==> partners == [])
  {
    if RequestedFormat(format) == "csv" then CsvBody(ConvertToCsv(partners, PartnerColumns(isoDay)))
    else UnsupportedFormat
  }

  // ------------------------------------------------------------ the routes as written

  /**
   * `convertToCSV(data, columns)` over whatever value the handler passes: a falsy value
   * or one whose `length` is 0 gives ""; an array gives its CSV; anything else reaches
   * `data.map`, which only arrays have, and throws (`None`).
   */
  function ConvertAny(data: Json, columns: seq<Column>): (r: Option<string>)
    ensures data.Arr? ==> r == Some(ConvertToCsv(data.items, columns))
    ensures !Truthy(data) ==> r == Some("")
    ensures Truthy(data) && !data.Arr? && Get(data, "length") != Num(0) ==> r.None?
  {
    if !Truthy(data) then Some("")
    else if data.Arr? then Some(ConvertToCsv(data.items, columns))
    else if Get(data, "length") == Num(0) then Some("")
    else None
  }

  /** An export request's outcome: the response, or status 500 "Export failed" when the handler throws. */
  datatype ExportOutcome = Answered(response: ExportResponse) | ExportFailed

  /** The handler's shape, shared by both exports: CSV over the fetched value, 400 for another format. */
  function ExportRoute(format: Option<string>, fetched: Json, columns: seq<Column>): (r: ExportOutcome)
    ensures RequestedFormat(format) != "csv" ==> r == Answered(UnsupportedFormat)
    ensures RequestedFormat(format) == "csv" && fetched.Arr? ==> r == Answered(CsvBody(ConvertToCsv(fetched.items, columns)))
  {
    if RequestedFormat(format) != "csv" then Answered(UnsupportedFormat)
    else match ConvertAny(fetched, columns)
      case Some(text) => Answered(CsvBody(text))
      case None => ExportFailed
  }

  /** `GET /api/export/users` as written, over whatever `getCustomers()` resolved to. */
  function ExportUsersRoute(format: Option<string>, fetched: Json, isoDay: IsoDay): (r: ExportOutcome)
    ensures fetched.Arr? ==> r == Answered(ExportUsers(format, fetched.items, isoDay))
    ensures RequestedFormat(format) != "csv" ==> r == Answered(UnsupportedFormat)
  {
    ExportRoute(format, fetched, UserColumns(isoDay))
  }

  /** `GET /api/export/partners` as written, over whatever `getPartners()` resolved to. */
  function ExportPartnersRoute(format: Option<string>, fetched: Json, isoDay: IsoDay): (r: ExportOutcome)
    ensures fetched.Arr? ==> r == Answered(ExportPartners(format, fetched.items, isoDay))
    ensures RequestedFormat(format) != "csv" ==> r == Answered(UnsupportedFormat)
  {
    ExportRoute(format, fetched, PartnerColumns(isoDay))
  }

  /** As written, every CSV export of users fails: `getCustomers()` resolves to `{ customers, total }`. */
  lemma UsersExportAlwaysFails(format: Option<string>, rows: seq<Json>, total: nat, isoDay: IsoDay)
    requires RequestedFormat(format) == "csv"
    ensures ExportUsersRoute(format, Supabase.ListObject("customers", rows, total), isoDay) == ExportFailed
  {
    var fetched := Supabase.ListObject("customers", rows, total);
    assert Get(fetched, "length") == Undefined;
  }

  /** As written, every CSV export of partners fails: `getPartners()` resolves to `{ partners, total }`. */
  lemma PartnersExportAlwaysFails(format: Option<string>, rows: seq<Json>, total: nat, isoDay: IsoDay)
    requires RequestedFormat(format) == "csv"
    ensures ExportPartnersRoute(format, Supabase.ListObject("partners", rows, total), isoDay) == ExportFailed
  {
    var fetched := Supabase.ListObject("partners", rows, total);
    assert Get(fetched, "length") == Undefined;
  }

  // ------------------------------------------------------------ reading an export back

  /** The user export's header names its ten columns, none of which needs quoting. */
  lemma UserHeader(isoDay: IsoDay)
    ensures Labels(UserColumns(isoDay))
      == ["Name", "Email", "Phone", "Gender", "Liked Sports", "City", "State", "Enrollments", "Turf Bookings", "Joined Date"]
  {
  }

  lemma UserPlain(isoDay: IsoDay)
    ensures PlainLabels(UserColumns(isoDay))
  {
    var cols := UserColumns(isoDay);
    UserHeader(isoDay);
    UserTitlesPlain(Labels(cols));
    forall i | 0 <= i < |cols| ensures !NeedsQuotes(cols[i].title) {
      assert cols[i].title == Labels(cols)[i];
    }
  }

  /** The partner export's header names its nine columns, none of which needs quoting. */
  lemma PartnerHeader(isoDay: IsoDay)
    ensures Labels(PartnerColumns(isoDay))
      == ["Name", "Email", "WhatsApp", "Type", "Sports", "City", "Verified", "Status", "Created Date"]
  {
  }

  lemma PartnerPlain(isoDay: IsoDay)
    ensures PlainLabels(PartnerColumns(isoDay))
  {
    var cols := PartnerColumns(isoDay);
    PartnerHeader(isoDay);
    PartnerTitlesPlain(Labels(cols));
    forall i | 0 <= i < |cols| ensures !NeedsQuotes(cols[i].title) {
      assert cols[i].title == Labels(cols)[i];
    }
  }


  /** No header label of the user export holds a comma, a line feed or a quote. */
  lemma UserTitlesPlain(ts: seq<string>)
    requires ts == ["Name", "Email", "Phone", "Gender", "Liked Sports", "City", "State", "Enrollments", "Turf Bookings", "Joined Date"]
    ensures forall i :: 0 <= i < |ts| ==> !NeedsQuotes(ts[i])
  {
    forall i | 0 <= i < |ts| ensures !NeedsQuotes(ts[i]) {
      if i == 0 {
        assert !NeedsQuotes("Name");
      } else if i == 1 {
        assert !NeedsQuotes("Email");
      } else if i == 2 {
        assert !NeedsQuotes("Phone");
      } else if i == 3 {
        assert !NeedsQuotes("Gender");
      } else if i == 4 {
        assert !NeedsQuotes("Liked Sports");
      } else if i == 5 {
        assert !NeedsQuotes("City");
      } else if i == 6 {
        assert !NeedsQuotes("State");
      } else if i == 7 {
        assert !NeedsQuotes("Enrollments");
      } else if i == 8 {
        assert !NeedsQuotes("Turf Bookings");
      } else {
        assert !NeedsQuotes("Joined Date");
      }
    }
  }

  /** No header label of the partner export holds a comma, a line feed or a quote. */
  lemma PartnerTitlesPlain(ts: seq<string>)
    requires ts == ["Name", "Email", "WhatsApp", "Type", "Sports", "City", "Verified", "Status", "Created Date"]
    ensures forall i :: 0 <= i < |ts| ==> !NeedsQuotes(ts[i])
  {
    forall i | 0 <= i < |ts| ensures !NeedsQuotes(ts[i]) {
      if i == 0 {
        assert !NeedsQuotes("Name");
      } else if i == 1 {
        assert !NeedsQuotes("Email");
      } else if i == 2 {
        assert !NeedsQuotes("WhatsApp");
      } else if i == 3 {
        assert !NeedsQuotes("Type");
      } else if i == 4 {
        assert !NeedsQuotes("Sports");
      } else if i == 5 {
        assert !NeedsQuotes("City");
      } else if i == 6 {
        assert !NeedsQuotes("Verified");
      } else if i == 7 {
        assert !NeedsQuotes("Status");
      } else {
        assert !NeedsQuotes("Created Date");
      }
    }
  }

  /**
   * Reading a user export back gives the header, then one record of ten fields per
   * customer: an enrollments or bookings array as its length, a liked-sports array as
   * its entries joined with "; ", a missing join date as the empty field.
   */
  lemma UserRowRead(customers: seq<Json>, isoDay: IsoDay, k: nat)
    requires k < |customers|
    ensures ReadRecords(ConvertToCsv(customers, UserColumns(isoDay))).Some?
    ensures var rows := ReadRecords(ConvertToCsv(customers, UserColumns(isoDay))).value;
      && |rows| == |customers| + 1
      && rows[0] == Labels(UserColumns(isoDay))
      && |rows[k + 1]| == 10
      && (Get(customers[k], "name").Str? ==> rows[k + 1][0] == Get(customers[k], "name").s)
      && (Get(customers[k], "liked_sports").Arr? ==>
            rows[k + 1][4] == Join(ElementTexts(Get(customers[k], "liked_sports").items), "; "))
      && (Get(customers[k], "enrollments").Arr? ==>
            rows[k + 1][7] == IntToString(|Get(customers[k], "enrollments").items|))
      && (Get(customers[k], "turf_bookings").Arr? ==>
            rows[k + 1][8] == IntToString(|Get(customers[k], "turf_bookings").items|))
      && (!Truthy(Get(customers[k], "created_at")) ==> rows[k + 1][9] == "")
  {
    UserPlain(isoDay);
    ExportRecord(customers, UserColumns(isoDay), k);
    var cells := CellTexts(customers[k], UserColumns(isoDay));
    UserNameAndDate(cells, customers[k], isoDay);
    UserSports(cells, customers[k], isoDay);
    UserCounts(cells, customers[k], isoDay);
  }

  /** A customer's record has ten fields; a text name is written as is, a missing join date as "". */
  lemma UserNameAndDate(cells: seq<string>, u: Json, isoDay: IsoDay)
    requires cells == CellTexts(u, UserColumns(isoDay))
    ensures |cells| == 10
    ensures Get(u, "name").Str? ==> cells[0] == Get(u, "name").s
    ensures !Truthy(Get(u, "created_at")) ==> cells[9] == ""
  {
    var cols := UserColumns(isoDay);
    UserGetters(isoDay);
    UserDateGetter(u, isoDay);
    FieldOf(u, cols, 0, Get(u, "name"));
    FieldOf(u, cols, 9, DateCell(Get(u, "created_at"), isoDay));
  }

  /** A liked-sports array is written as its entries joined with "; ". */
  lemma UserSports(cells: seq<string>, u: Json, isoDay: IsoDay)
    requires cells == CellTexts(u, UserColumns(isoDay))
    ensures Get(u, "liked_sports").Arr? ==> cells[4] == Join(ElementTexts(Get(u, "liked_sports").items), "; ")
  {
    UserGetters(isoDay);
    FieldOf(u, UserColumns(isoDay), 4, LikedSportsOf(u));
  }

  /** Enrollments and bookings arrays are written as their lengths. */
  lemma UserCounts(cells: seq<string>, u: Json, isoDay: IsoDay)
    requires cells == CellTexts(u, UserColumns(isoDay))
    ensures Get(u, "enrollments").Arr? ==> cells[7] == IntToString(|Get(u, "enrollments").items|)
    ensures Get(u, "turf_bookings").Arr? ==> cells[8] == IntToString(|Get(u, "turf_bookings").items|)
  {
    var cols := UserColumns(isoDay);
    UserGetters(isoDay);
    FieldOf(u, cols, 7, EnrollmentsOf(u));
    FieldOf(u, cols, 8, TurfBookingsOf(u));
    CountText(Get(u, "enrollments"));
    CountText(Get(u, "turf_bookings"));
  }

  /** An array's count cell reads as its length in decimal. */
  lemma CountText(v: Json)
    ensures v.Arr? ==> CellText(CountCell(v)) == IntToString(|v.items|)
  {
  }

  /** The user columns read the name by key and compute the lists and counts with their getters. */
  lemma UserGetters(isoDay: IsoDay)
    ensures UserColumns(isoDay)[0].getValue.None? && UserColumns(isoDay)[0].key == "name"
    ensures UserColumns(isoDay)[4].getValue == Some(LikedSportsOf)
    ensures UserColumns(isoDay)[7].getValue == Some(EnrollmentsOf)
    ensures UserColumns(isoDay)[8].getValue == Some(TurfBookingsOf)
  {
  }

  /** The joined-date column applies the date getter to `created_at`. */
  lemma UserDateGetter(u: Json, isoDay: IsoDay)
    ensures CellValue(u, UserColumns(isoDay)[9]) == DateCell(Get(u, "created_at"), isoDay)
  {
  }

  /**
   * Reading a partner export back gives the header, then one record of nine fields per
   * partner, whose Verified field is "Yes" exactly for verified partners, whose Status
   * field is "Disabled" exactly for disabled ones, and whose City field follows
   * `address.city`, then `city`.
   */
  lemma PartnerRowRead(partners: seq<Json>, isoDay: IsoDay, k: nat)
    requires k < |partners|
    ensures ReadRecords(ConvertToCsv(partners, PartnerColumns(isoDay))).Some?
    ensures var rows := ReadRecords(ConvertToCsv(partners, PartnerColumns(isoDay))).value;
      && |rows| == |partners| + 1
      && rows[0] == Labels(PartnerColumns(isoDay))
      && |rows[k + 1]| == 9
      && (rows[k + 1][6] == "Yes" <==> Truthy(Get(partners[k], "verified")))
      && (rows[k + 1][6] == "Yes" || rows[k + 1][6] == "No")
      && (rows[k + 1][7] == "Disabled" <==> Truthy(Get(partners[k], "disabled")))
      && (rows[k + 1][7] == "Disabled" || rows[k + 1][7] == "Active")
      && rows[k + 1][5] == CellText(CityCell(partners[k]))
  {
    PartnerPlain(isoDay);
    ExportRecord(partners, PartnerColumns(isoDay), k);
    PartnerCells(CellTexts(partners[k], PartnerColumns(isoDay)), partners[k], isoDay);
  }

  /** The nine fields written for one partner. */
  lemma PartnerCells(cells: seq<string>, p: Json, isoDay: IsoDay)
    requires cells == CellTexts(p, PartnerColumns(isoDay))
    ensures |cells| == 9
    ensures cells[5] == CellText(CityCell(p))
    ensures cells[6] == "Yes" <==> Truthy(Get(p, "verified"))
    ensures cells[6] == "Yes" || cells[6] == "No"
    ensures cells[7] == "Disabled" <==> Truthy(Get(p, "disabled"))
    ensures cells[7] == "Disabled" || cells[7] == "Active"
  {
    var cols := PartnerColumns(isoDay);
    PartnerGetters(isoDay);
    FieldOf(p, cols, 5, CityCell(p));
    FieldOf(p, cols, 6, VerifiedCell(p));
    FieldOf(p, cols, 7, StatusCell(p));
  }

  /** The partner columns compute the city, the verified flag and the status with their getters. */
  lemma PartnerGetters(isoDay: IsoDay)
    ensures PartnerColumns(isoDay)[5].getValue == Some(CityCell)
    ensures PartnerColumns(isoDay)[6].getValue == Some(VerifiedCell)
    ensures PartnerColumns(isoDay)[7].getValue == Some(StatusCell)
  {
  }

  /**
   * The customers carry `enrollments` and `turf_bookings` as one-entry `[{ count }]`
   * aggregates. The export writes the length of that array, so every customer
   * exports 1 in both columns, while the customers table shows the count itself.
   */
  lemma AggregateExportedAsOne(u: Json, n: int, isoDay: IsoDay)
    requires Get(u, "enrollments") == Arr([Obj(map["count" := Num(n)])])
    requires Get(u, "turf_bookings") == Arr([Obj(map["count" := Num(n)])])
    ensures var cells := CellTexts(u, UserColumns(isoDay));
      |cells| == 10 && cells[7] == "1" && cells[8] == "1"
    ensures CustomersTable.FirstCount(Get(u, "enrollments")) == n
    ensures CustomersTable.FirstCount(Get(u, "turf_bookings")) == n
  {
    var cells := CellTexts(u, UserColumns(isoDay));
    UserNameAndDate(cells, u, isoDay);
    UserCounts(cells, u, isoDay);
    OneIsOne();
    SingleAggregate(n);
  }

  lemma OneIsOne()
    ensures IntToString(1) == "1"
  {
  }

  lemma SingleAggregate(n: int)
    ensures CustomersTable.FirstCount(Arr([Obj(map["count" := Num(n)])])) == n
  {
  }
}
