/**
 * The bill store behind the /mr, /years and /search handlers. The two
 * files the handlers read and write are the two parts of the state: the
 * last meter reading (log/lastmr.txt) and the JSON object of bills keyed
 * by `MMYYYY` (log/database.json), with the order of that object's
 * members, which Python's dict keeps and /years reports in.
 */
module MeterServer {
  import opened Wrappers
  import opened DateKeys
  import opened FirstSeen
  import opened Billing

  /** The JSON reply of /mr and /search: a bill with status "success", or status "nf". */
  datatype Reply = Success(record: Record) | NotFound
  {
    function Status(): string
    {
      if Success? then "success" else "nf"
    }
  }

  /**
   * /search with a month name strptime rejects: month_name_to_number gives
   * None and `None + str(year)` raises, so the request fails.
   */
  datatype SearchError = UnknownMonth

  /** The /search lookup: the key is the month's two-digit number followed by the year text. */
  function Lookup(db: map<string, Record>, month: string, year: string): (r: Result<Reply, SearchError>)
    ensures r.Err? <==> Lower(month) !in FoldedNames
    ensures r.Err? ==> r.error == UnknownMonth
    ensures forall i :: 0 <= i < 12 && FoldedNames[i] == Lower(month) ==>
              r == if MonthCodes[i] + year in db then Ok(Success(db[MonthCodes[i] + year])) else Ok(NotFound)
  {
    match MonthNumber(month)
    case None => Err(UnknownMonth)
    case Some(number) =>
      var key := number + year;
      if key in db then Ok(Success(db[key])) else Ok(NotFound)
  }

  /** The years of the keys, in key order, before duplicates are dropped. */
  function KeyYears(keys: seq<string>): seq<string>
  {
    if keys == [] then [] else KeyYears(keys[..|keys| - 1]) + [YearOf(keys[|keys| - 1])]
  }

  lemma {:induction false} KeyYearsElements(keys: seq<string>, y: string)
    ensures y in KeyYears(keys) <==> exists k :: k in keys && YearOf(k) == y
  {
    if keys != [] {
      var p := keys[..|keys| - 1];
      KeyYearsElements(p, y);
      assert keys == p + [keys[|keys| - 1]];
    }
  }

  /** A month's bill is found by the month's name, in any letter case, and the year's `%Y` text. */
  lemma {:induction false} SearchFindsBill(db: map<string, Record>, month: nat, year: nat, name: string)
    requires 1 <= month <= 12 && year < 10000
    requires Lower(name) == Lower(MonthName(month))
    requires DateKey(month, year) in db
    ensures Lookup(db, name, FourDigits(year)) == Ok(Success(db[DateKey(month, year)]))
  {
    FoldedName(month);
  }

  /** Storing a month's bill leaves what every other month's search returns. */
  lemma {:induction false} SearchOtherMonth(db: map<string, Record>, month: nat, year: nat, bill: Record, m: nat, y: nat)
    requires 1 <= month <= 12 && year < 10000
    requires 1 <= m <= 12 && y < 10000
    requires m != month || y != year
    ensures Lookup(db[DateKey(month, year) := bill], MonthName(m), FourDigits(y)) == Lookup(db, MonthName(m), FourDigits(y))
  {
    MonthNumberOfFullName(m);
    DateKeyInjective(month, year, m, y);
  }

  class MeterStore {
    /** The content of log/lastmr.txt. */
    var lastReading: real
    /** The content of log/database.json. */
    var db: map<string, Record>
    /** The order of the members of that JSON object. */
    var keys: seq<string>

    ghost predicate Valid()
      reads this
    {
      Distinct(keys) && forall k :: k in keys <==> k in db
    }

    /** The state as the two files hold it when the server starts. */
    constructor (reading: real, bills: map<string, Record>, order: seq<string>)
      requires Distinct(order) && forall k :: k in order <==> k in bills
      ensures Valid()
      ensures lastReading == reading && db == bills && keys == order
    {
      lastReading := reading;
      db := bills;
      keys := order;
    }

    /**
     * meter_reading (POST /mr): bills the consumption since the last
     * reading, makes `cmReading` the last reading and stores the bill under
     * this month's key, replacing a bill already there. The clock's month,
     * year and `%d %B %Y` text are parameters.
     */
    method Submit(cmReading: real, advance: real, waterM: real, month: nat, year: nat, formattedDate: string)
      returns (reply: Reply)
      requires Valid()
      requires 1 <= month <= 12 && 1 <= year <= 9999
      modifies this
      ensures Valid()
      ensures lastReading == cmReading
      ensures db == old(db)[DateKey(month, year) := NewBill(formattedDate, cmReading, old(lastReading), waterM, advance)]
      ensures keys == if DateKey(month, year) in old(db) then old(keys) else old(keys) + [DateKey(month, year)]
      ensures forall k :: k != DateKey(month, year) ==> (k in db <==> k in old(db)) && (k in db ==> db[k] == old(db)[k])
      ensures reply == Success(db[DateKey(month, year)])
      ensures (forall k :: k in old(db) ==> Consistent(old(db)[k])) ==> forall k :: k in db ==> Consistent(db[k])
    {
      var lmReading := lastReading;
      var unitConsumed := cmReading - lmReading;
      var money := unitConsumed * PerUnitCost;
      var tMoney := money + waterM;
      var gtMoney := tMoney - advance;
      lastReading := cmReading;
      var record := Record(formattedDate, cmReading, lmReading, unitConsumed, money, waterM, tMoney, advance, gtMoney);
      var dateKey := DateKey(month, year);
      if dateKey !in db {
        keys := keys + [dateKey];
      }
      db := db[dateKey := record];
      reply := Success(record);
    }

    /**
     * years (GET /years): the `key[2:6]` of every key, in key order, each
     * year once.
     */
    method Years() returns (years: seq<string>)
      requires Valid()
      ensures years == Dedup(KeyYears(keys))
      ensures FirstSeenList(KeyYears(keys), years)
      ensures forall y :: y in years <==> exists k :: k in db && YearOf(k) == y
      ensures db == map[] ==> years == []
    {
      years := [];
      for i := 0 to |keys|
        invariant years == Dedup(KeyYears(keys[..i]))
      {
        var year := YearOf(keys[i]);
        assert keys[..i + 1][..i] == keys[..i];
        if year !in years {
          years := years + [year];
        }
      }
      assert keys[..|keys|] == keys;
      if keys != [] {
        assert keys[0] in db;
      }
      forall y ensures y in years <==> exists k :: k in db && YearOf(k) == y {
        KeyYearsElements(keys, y);
      }
      FirstSeenListIsDedup(KeyYears(keys), years);
    }

    /** search (POST /search): reads the store and changes nothing. */
    method Search(month: string, year: string) returns (r: Result<Reply, SearchError>)
      ensures r == Lookup(db, month, year)
    {
      r := Lookup(db, month, year);
    }
  }

  /** Storing twice under one key leaves only the second value. */
  lemma OverwriteTwice<K, V>(m: map<K, V>, k: K, a: V, b: V)
    ensures m[k := a][k := b] == m[k := b]
  {
  }

  /**
   * Two readings submitted in one month, then that month searched: the
   * second bill is billed from the first bill's reading, it replaces the
   * first, and it is what the search returns.
   */
  method ResubmitInMonth(store: MeterStore, month: nat, year: nat,
                         cm1: real, advance1: real, water1: real, date1: string,
                         cm2: real, advance2: real, water2: real, date2: string)
    returns (first: Reply, second: Reply, found: Result<Reply, SearchError>)
    requires store.Valid()
    requires 1 <= month <= 12 && 1 <= year <= 9999
    modifies store
    ensures store.Valid()
    ensures first.Success? && second.Success?
    ensures first.record == NewBill(date1, cm1, old(store.lastReading), water1, advance1)
    ensures second.record == NewBill(date2, cm2, first.record.thismr, water2, advance2)
    ensures store.db == old(store.db)[DateKey(month, year) := second.record]
    ensures store.lastReading == cm2
    ensures found == Ok(second)
  {
    ghost var bills := store.db;
    first := store.Submit(cm1, advance1, water1, month, year, date1);
    second := store.Submit(cm2, advance2, water2, month, year, date2);
    OverwriteTwice(bills, DateKey(month, year), first.record, second.record);
    SearchFindsBill(store.db, month, year, MonthName(month));
    found := store.Search(MonthName(month), FourDigits(year));
  }

  /** A July 2024 reading of 150 after 120, with 30 for water and 50 paid in advance. */
  lemma July2024Bill(date: string)
    ensures var bill := NewBill(date, 150.0, 120.0, 30.0, 50.0);
            bill.unitConsumed == 30.0 && bill.money == 240.0 && bill.tmoney == 270.0 && bill.gtMoney == 220.0
  {
  }
}
