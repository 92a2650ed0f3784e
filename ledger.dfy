/**
 * The payment ledger of App.tsx as functions over the record list: the duplicate-month
 * test, the record a rent entry builds and its receipt number, the cascade filter of a
 * tenant delete, and the `reduce` that totals rent amounts.
 */
module Ledger {
  import opened Wrappers
  import opened Types
  import opened Seqs
  import opened Decimal

  /** The rent-entry form (`formData`), with the amount already read as a number. */
  datatype RentForm = RentForm(
    userId: string,
    tenantName: string,
    flatNumber: string,
    mobileNumber: string,
    rentMonth: string,
    rentAmount: int,
    paymentMethod: PaymentMethod,
    mfsNumber: string)

  /** Whether the tenant already has a record for the month (App.tsx:155). */
  predicate AlreadyPaid(records: seq<RentRecord>, userId: string, month: string): (b: bool)
    ensures b <==> exists i :: 0 <= i < |records| && records[i].userId == userId && records[i].rentMonth == month
  {
    Any((r: RentRecord) => r.userId == userId && r.rentMonth == month, records)
  }

  /** At most one record per (userId, rentMonth). */
  predicate OnePerMonth(records: seq<RentRecord>) {
    forall i, j :: 0 <= i < j < |records| ==>
      !(records[i].userId == records[j].userId && records[i].rentMonth == records[j].rentMonth)
  }

  predicate RecordIdUnused(records: seq<RentRecord>, id: string) {
    forall i :: 0 <= i < |records| ==> records[i].id != id
  }

  /** The receipt number: "REC-" and the last six characters of the clock reading's numeral (App.tsx:166). */
  function ReceiptNumber(nowMillis: nat): (s: string)
    ensures 5 <= |s| <= 10 && s[..4] == "REC-"
  {
    "REC-" + LastChars(6, DecimalString(nowMillis))
  }

  /** The characters after "REC-" are digits spelling the clock reading modulo 10^6. */
  lemma ReceiptNumberDigits(nowMillis: nat)
    ensures var s := ReceiptNumber(nowMillis);
            AllDigits(s[4..]) && DigitsValue(s[4..]) == nowMillis % 1000000
  {
    var digits := LastChars(6, DecimalString(nowMillis));
    LastDigitsValue(6, nowMillis);
    assert ReceiptNumber(nowMillis)[4..] == digits;
  }

  /** Any clock reading from 100000 ms on gives a full ten-character receipt number. */
  lemma ReceiptNumberLength(nowMillis: nat)
    requires nowMillis >= 100000
    ensures |ReceiptNumber(nowMillis)| == 10
  {
    DecimalLength(5, nowMillis);
  }

  /**
   * Receipt numbers are unique only modulo 10^6 ms: two readings from 100000 ms on give
   * the same receipt number exactly when they agree in their last six digits.
   */
  lemma ReceiptNumberCollision(t1: nat, t2: nat)
    requires t1 >= 100000 && t2 >= 100000
    ensures ReceiptNumber(t1) == ReceiptNumber(t2) <==> t1 % 1000000 == t2 % 1000000
  {
    var r1, r2 := ReceiptNumber(t1), ReceiptNumber(t2);
    ReceiptNumberLength(t1);
    ReceiptNumberLength(t2);
    ReceiptNumberDigits(t1);
    ReceiptNumberDigits(t2);
    if t1 % 1000000 == t2 % 1000000 {
      DigitsValueInjective(r1[4..], r2[4..]);
      assert r1 == r1[..4] + r1[4..] && r2 == r2[..4] + r2[4..];
    }
  }

  /**
   * The record `handleRentEntry` builds: the form's fields spread in, the parsed amount,
   * the clock readings, and no bank name, account number or branch, which the form never collects.
   */
  function NewRecord(id: string, form: RentForm, paymentDate: string, nowMillis: nat): (r: RentRecord)
    ensures r.id == id && r.userId == form.userId && r.rentMonth == form.rentMonth
    ensures r.tenantName == form.tenantName && r.flatNumber == form.flatNumber && r.mobileNumber == form.mobileNumber
    ensures r.rentAmount == form.rentAmount && r.paymentMethod == form.paymentMethod
    ensures r.receiptNumber == ReceiptNumber(nowMillis) && r.paymentDate == paymentDate
    ensures r.bankName.None? && r.branch.None? && r.accountNumber.None? && r.mfsNumber == Some(form.mfsNumber)
  {
    RentRecord(id, form.userId, form.tenantName, form.flatNumber, form.mobileNumber,
               form.rentMonth, form.rentAmount, paymentDate, ReceiptNumber(nowMillis),
               form.paymentMethod, None, None, None, Some(form.mfsNumber))
  }

  /** The records paid under this tenant id, in ledger order (App.tsx:412). */
  function RecordsOf(records: seq<RentRecord>, userId: string): (r: seq<RentRecord>)
    ensures forall i :: 0 <= i < |r| ==> r[i].userId == userId && r[i] in records
    ensures forall i :: 0 <= i < |records| && records[i].userId == userId ==> records[i] in r
  {
    Filter((x: RentRecord) => x.userId == userId, records)
  }

  /** The records not paid under this id, in order: the cascade of a tenant delete (App.tsx:188). */
  function RemoveRecordsOf(records: seq<RentRecord>, userId: string): (r: seq<RentRecord>)
    ensures RecordsOf(r, userId) == []
    ensures forall i :: 0 <= i < |records| && records[i].userId != userId ==> records[i] in r
    ensures forall i :: 0 <= i < |r| ==> r[i] in records
  {
    var r := Filter((x: RentRecord) => x.userId != userId, records);
    FilterKeepsNone((x: RentRecord) => x.userId == userId, r);
    r
  }

  /** The sum of the rent amounts, added from the first record to the last (App.tsx:197, 413). */
  function TotalAmount(records: seq<RentRecord>): (t: int)
    ensures records == [] ==> t == 0
    ensures NonNegativeAmounts(records) ==> t >= 0
    ensures NonNegativeAmounts(records) ==> forall i :: 0 <= i < |records| ==> records[i].rentAmount <= t
    decreases |records|
  {
    if records == [] then 0
    else
      var front := records[..|records| - 1];
      assert NonNegativeAmounts(records) ==> NonNegativeAmounts(front);
      TotalAmount(front) + records[|records| - 1].rentAmount
  }

  /** No record has a negative amount (the form does not enforce it). */
  predicate NonNegativeAmounts(records: seq<RentRecord>) {
    forall i :: 0 <= i < |records| ==> records[i].rentAmount >= 0
  }

  lemma {:induction false} TotalAmountConcat(a: seq<RentRecord>, b: seq<RentRecord>)
    ensures TotalAmount(a + b) == TotalAmount(a) + TotalAmount(b)
    decreases |b|
  {
    if b == [] {
      assert a + b == a;
    } else {
      assert (a + b)[..|a + b| - 1] == a + b[..|b| - 1];
      TotalAmountConcat(a, b[..|b| - 1]);
    }
  }

  /** A record with the newest in front adds its amount to the total. */
  lemma TotalAmountPrepend(x: RentRecord, rs: seq<RentRecord>)
    ensures TotalAmount([x] + rs) == x.rentAmount + TotalAmount(rs)
  {
    TotalAmountConcat([x], rs);
    assert [x][..0] == [];
  }

  /**
   * Splitting a filter by two disjoint predicates splits the total: the total of the records
   * `o` keeps is the total that `p` keeps plus the total that `q` keeps.
   */
  lemma {:induction false} TotalAmountSplit(o: RentRecord -> bool, p: RentRecord -> bool, q: RentRecord -> bool,
                                            rs: seq<RentRecord>)
    requires forall i :: 0 <= i < |rs| ==> o(rs[i]) == (p(rs[i]) || q(rs[i]))
    requires forall i :: 0 <= i < |rs| ==> !(p(rs[i]) && q(rs[i]))
    ensures TotalAmount(Filter(o, rs)) == TotalAmount(Filter(p, rs)) + TotalAmount(Filter(q, rs))
    decreases |rs|
  {
    if rs != [] {
      var x, rest := rs[0], rs[1..];
      TotalAmountSplit(o, p, q, rest);
      if p(x) {
        assert Filter(o, rs) == [x] + Filter(o, rest) && Filter(p, rs) == [x] + Filter(p, rest);
        assert Filter(q, rs) == Filter(q, rest);
        TotalAmountPrepend(x, Filter(o, rest));
        TotalAmountPrepend(x, Filter(p, rest));
      } else if q(x) {
        assert Filter(o, rs) == [x] + Filter(o, rest) && Filter(q, rs) == [x] + Filter(q, rest);
        assert Filter(p, rs) == Filter(p, rest);
        TotalAmountPrepend(x, Filter(o, rest));
        TotalAmountPrepend(x, Filter(q, rest));
      } else {
        assert Filter(o, rs) == Filter(o, rest);
        assert Filter(p, rs) == Filter(p, rest) && Filter(q, rs) == Filter(q, rest);
      }
    }
  }

  /** Refusing a record for an already-paid month, and prepending otherwise, keeps one record per month. */
  lemma PrependKeepsOnePerMonth(records: seq<RentRecord>, x: RentRecord)
    requires OnePerMonth(records) && !AlreadyPaid(records, x.userId, x.rentMonth)
    ensures OnePerMonth([x] + records)
  {
    var rs := [x] + records;
    forall i, j | 0 <= i < j < |rs|
      ensures !(rs[i].userId == rs[j].userId && rs[i].rentMonth == rs[j].rentMonth)
    {
      if i > 0 {
        assert rs[i] == records[i - 1] && rs[j] == records[j - 1];
      } else {
        assert rs[j] == records[j - 1];
      }
    }
  }

  /** Filtering, and so the delete cascade, keeps one record per month. */
  lemma {:induction false} FilterKeepsOnePerMonth(p: RentRecord -> bool, records: seq<RentRecord>)
    requires OnePerMonth(records)
    ensures OnePerMonth(Filter(p, records))
    decreases |records|
  {
    if records != [] {
      var x, rest := records[0], records[1..];
      assert OnePerMonth(rest);
      FilterKeepsOnePerMonth(p, rest);
      var fr := Filter(p, rest);
      forall i | 0 <= i < |fr|
        ensures !(fr[i].userId == x.userId && fr[i].rentMonth == x.rentMonth)
      {
        var k :| 0 <= k < |rest| && rest[k] == fr[i];
        assert records[k + 1] == fr[i];
      }
    }
  }

  lemma RemoveKeepsOnePerMonth(records: seq<RentRecord>, userId: string)
    requires OnePerMonth(records)
    ensures OnePerMonth(RemoveRecordsOf(records, userId))
  {
    FilterKeepsOnePerMonth((x: RentRecord) => x.userId != userId, records);
  }

  /** The cascade leaves every other account's records exactly as they were, in order. */
  lemma RemoveKeepsOthersRecords(records: seq<RentRecord>, removed: string, other: string)
    requires other != removed
    ensures RecordsOf(RemoveRecordsOf(records, removed), other) == RecordsOf(records, other)
  {
    var keep := (x: RentRecord) => x.userId != removed;
    var mine := (x: RentRecord) => x.userId == other;
    FilterAfterWeaker(mine, keep, records);
  }
}
