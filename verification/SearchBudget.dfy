/** The byte budget of search results: how many rows to keep and how long their snippets may be, so that
    the JSON text stays within the limit whatever the snippets contain. */
module SearchBudget {

  /** A byte of text. For bytes outside ASCII, intact says that the byte belongs to a valid UTF-8 sequence
      that needs no escape. */
  datatype Octet = Octet(value: nat, intact: bool)

  type Text = seq<Octet>

  /** The length of the JSON escape of one byte: two for the short escapes, six for a \uXXXX escape
      (section 7 of RFC 8259; angle brackets and ampersands are escaped too), one for the byte itself. */
  function EscapeLength(o: Octet): (n: nat)
    ensures 1 <= n <= 6
  {
    if o.value in {8, 9, 10, 12, 13, 34, 92} then 2
    else if o.value < 32 || o.value in {38, 60, 62} then 6
    else if o.value < 128 || o.intact then 1
    else 6
  }

  function Hex(n: nat): (b: nat)
    requires n < 16
    ensures 48 <= b <= 57 || 97 <= b <= 102
  {
    if n < 10 then 48 + n else 87 + n
  }

  function FromHex(b: nat): int { if b < 58 then b - 48 else b - 87 }

  /** The bytes that stand for one byte of text in a JSON string. A byte that is not part of valid UTF-8 becomes
      the escape of the replacement character. */
  function Escape(o: Octet): seq<nat> {
    match o.value
    case 8 => [92, 98]
    case 9 => [92, 116]
    case 10 => [92, 110]
    case 12 => [92, 102]
    case 13 => [92, 114]
    case 34 => [92, 34]
    case 92 => [92, 92]
    case v =>
      if v < 32 || v == 38 || v == 60 || v == 62 then [92, 117, 48, 48, Hex(v / 16), Hex(v % 16)]
      else if v < 128 || o.intact then [v]
      else [92, 117, 102, 102, 102, 100]
  }

  /** What a reader of JSON makes of an escape of one ASCII byte. */
  function Unescape(e: seq<nat>): int {
    if |e| == 1 then e[0]
    else if |e| == 6 && 48 <= e[4] <= 102 && 48 <= e[5] <= 102 then 16 * FromHex(e[4]) + FromHex(e[5])
    else if |e| < 2 then 0
    else match e[1]
      case 98 => 8
      case 116 => 9
      case 110 => 10
      case 102 => 12
      case 114 => 13
      case b => b
  }

  /** The counted length is that of the escape, and a reader gets every ASCII byte back. */
  lemma EscapeRoundTrip(o: Octet)
    ensures |Escape(o)| == EscapeLength(o)
    ensures o.value < 128 ==> Unescape(Escape(o)) == o.value
  {
  }

  function EscapedLength(t: Text): nat {
    if t == [] then 0 else EscapedLength(t[..|t| - 1]) + EscapeLength(t[|t| - 1])
  }

  /** Six escaped bytes per raw byte always suffice. */
  lemma {:induction false} SixFold(t: Text)
    ensures |t| <= EscapedLength(t) <= 6 * |t|
  {
    if t != [] { SixFold(t[..|t| - 1]); }
  }

  function Repeat(value: nat, n: nat): Text { seq(n, _ => Octet(value, true)) }

  lemma {:induction false} RepeatLength(value: nat, n: nat)
    requires EscapeLength(Octet(value, true)) == 1
    ensures EscapedLength(Repeat(value, n)) == n
  {
    if n > 0 {
      RepeatLength(value, n - 1);
      assert Repeat(value, n)[..n - 1] == Repeat(value, n - 1);
    }
  }

  /** A search result. fixed is the encoded length of everything but the evidence id and the snippet text;
      the id field, with its key and quotes, appears only when the id is not empty. */
  datatype Row = Row(fixed: nat, id: Text, snippet: Text)

  const ID_FIELD: nat := 23

  function RowLength(r: Row): nat {
    r.fixed + (if r.id == [] then 0 else ID_FIELD + EscapedLength(r.id)) + EscapedLength(r.snippet)
  }

  function Sum(rows: seq<Row>): nat { if rows == [] then 0 else Sum(rows[..|rows| - 1]) + RowLength(rows[|rows| - 1]) }

  /** Length of the indented JSON array: brackets, and a line break, indentation and comma per row. */
  function EncodedLength(rows: seq<Row>): nat { Sum(rows) + 4 * |rows| + 2 }

  const LOWER_E: nat := 101
  const LOWER_X: nat := 120

  /** The row with room for a handle of 64 bytes and a snippet of n plain bytes. */
  function Reserve(r: Row, n: nat): Row { Row(r.fixed, Repeat(LOWER_E, 64), Repeat(LOWER_X, n)) }

  function ReserveAll(rows: seq<Row>, n: nat): (out: seq<Row>)
    ensures |out| == |rows|
  {
    seq(|rows|, i requires 0 <= i < |rows| => Reserve(rows[i], n))
  }

  lemma ReserveLength(r: Row, n: nat)
    ensures RowLength(Reserve(r, n)) == r.fixed + ID_FIELD + 64 + n
  {
    RepeatLength(LOWER_E, 64);
    RepeatLength(LOWER_X, n);
  }

  lemma ReserveNext(rows: seq<Row>, r: Row, n: nat)
    ensures ReserveAll(rows + [r], n) == ReserveAll(rows, n) + [Reserve(r, n)]
    ensures Sum(ReserveAll(rows + [r], n)) == Sum(ReserveAll(rows, n)) + r.fixed + ID_FIELD + 64 + n
  {
    hide RowLength, Reserve;
    var after := ReserveAll(rows + [r], n);
    assert after == ReserveAll(rows, n) + [Reserve(r, n)];
    assert after[..|rows|] == ReserveAll(rows, n);
    ReserveLength(r, n);
  }

  lemma Times(k: nat, n: nat)
    ensures (k + 1) * n == k * n + n
  {
  }

  /** The reserved length grows by exactly the snippet room. */
  lemma {:induction false} ReserveSum(rows: seq<Row>, n: nat)
    ensures Sum(ReserveAll(rows, n)) == Sum(ReserveAll(rows, 0)) + |rows| * n
  {
    if rows == [] {
      assert ReserveAll(rows, n) == [] && ReserveAll(rows, 0) == [];
    } else {
      hide Sum, ReserveAll;
      var l := |rows| - 1;
      ReserveSum(rows[..l], n);
      assert rows == rows[..l] + [rows[l]];
      ReserveNext(rows[..l], rows[l], n);
      ReserveNext(rows[..l], rows[l], 0);
      Times(l, n);
    }
  }

  /** A row as it is finally sent: an id of at most 64 encoded bytes, a snippet of at most n encoded bytes, and
      other fields that did not grow. */
  predicate Fills(f: Row, r: Row, n: nat) {
    f.fixed <= r.fixed && EscapedLength(f.id) <= 64 && EscapedLength(f.snippet) <= n
  }

  predicate FillsAll(fs: seq<Row>, rows: seq<Row>, n: nat) {
    |fs| == |rows| && forall i | 0 <= i < |rows| :: Fills(fs[i], rows[i], n)
  }

  /** However the rows are filled, they are no longer than the reserved rows. */
  lemma {:induction false} FilledFits(fs: seq<Row>, rows: seq<Row>, n: nat)
    requires FillsAll(fs, rows, n)
    ensures EncodedLength(fs) <= EncodedLength(ReserveAll(rows, n))
  {
    if rows != [] {
      var l := |rows| - 1;
      FilledFits(fs[..l], rows[..l], n);
      assert ReserveAll(rows, n)[..l] == ReserveAll(rows[..l], n);
      ReserveLength(rows[l], n);
      assert Fills(fs[l], rows[l], n);
    }
  }

  /** Snippets that encode to more than their share exceed the limit by no more than what they grew. */
  lemma GrownFits(fs: seq<Row>, rows: seq<Row>, maxBytes: nat, share: nat, grown: nat)
    requires FillsAll(fs, rows, share + grown) && EncodedLength(ReserveAll(rows, share)) <= maxBytes
    ensures EncodedLength(fs) <= maxBytes + |rows| * grown
  {
    hide Sum, ReserveAll, FillsAll;
    FilledFits(fs, rows, share + grown);
    ReserveSum(rows, share);
    ReserveSum(rows, share + grown);
    Distribute(|rows|, share, grown);
  }

  lemma Distribute(n: nat, a: nat, b: nat)
    ensures n * (a + b) == n * a + n * b
  {
  }

  /* ----- redaction ----- */

  /** A piece of an excerpt before and after redaction; a piece that is kept is its own output. */
  datatype Piece = Piece(raw: Text, out: Text)

  function Raw(ps: seq<Piece>): Text { if ps == [] then [] else Raw(ps[..|ps| - 1]) + ps[|ps| - 1].raw }

  function Redacted(ps: seq<Piece>): Text { if ps == [] then [] else Redacted(ps[..|ps| - 1]) + ps[|ps| - 1].out }

  lemma {:induction false} EscapedAppend(a: Text, b: Text)
    ensures EscapedLength(a + b) == EscapedLength(a) + EscapedLength(b)
    decreases |b|
  {
    if b == [] {
      assert a + b == a;
    } else {
      assert (a + b)[..|a + b| - 1] == a + b[..|b| - 1];
      EscapedAppend(a, b[..|b| - 1]);
    }
  }

  /** Redaction may make an excerpt longer, but it stays within the share of its raw bytes as long as every
      piece is replaced by one that encodes to at most six bytes per raw byte it replaces. */
  lemma {:induction false} RedactedFits(ps: seq<Piece>)
    requires forall i | 0 <= i < |ps| :: EscapedLength(ps[i].out) <= 6 * |ps[i].raw|
    ensures EscapedLength(Redacted(ps)) <= 6 * |Raw(ps)|
  {
    if ps != [] {
      var l := |ps| - 1;
      RedactedFits(ps[..l]);
      EscapedAppend(Redacted(ps[..l]), ps[l].out);
    }
  }

  /** Once a snippet allowance is chosen from the space left, the reserved rows fit. */
  lemma AllowanceFits(rows: seq<Row>, maxBytes: nat, item: nat)
    requires rows != [] && EncodedLength(ReserveAll(rows, 1)) <= maxBytes
    requires item == (maxBytes - EncodedLength(ReserveAll(rows, 1))) / (|rows| * 6)
    ensures EncodedLength(ReserveAll(rows, 6 * item)) <= maxBytes
  {
    hide Sum, ReserveAll;
    ReserveSum(rows, 1);
    ReserveSum(rows, 6 * item);
    Quotient(maxBytes - EncodedLength(ReserveAll(rows, 1)), |rows| * 6);
    Regroup(|rows|, item);
  }

  lemma Regroup(n: nat, item: nat)
    ensures n * (6 * item) == (n * 6) * item
  {
  }

  lemma Quotient(a: nat, b: nat)
    requires 0 < b
    ensures b * (a / b) <= a
  {
  }

  /** The rows leave room for at least one raw byte of snippet each. */
  predicate Admits(rows: seq<Row>, maxBytes: int) { EncodedLength(ReserveAll(rows, 1)) + 6 * |rows| <= maxBytes }

  lemma AllowanceAdmits(rows: seq<Row>, maxBytes: nat)
    requires rows != [] && EncodedLength(ReserveAll(rows, 1)) <= maxBytes
    ensures (maxBytes - EncodedLength(ReserveAll(rows, 1))) / (|rows| * 6) >= 1 <==> Admits(rows, maxBytes)
  {
    hide Sum, ReserveAll;
    AtLeastOne(maxBytes - EncodedLength(ReserveAll(rows, 1)), |rows| * 6);
  }

  lemma AtLeastOne(a: nat, b: nat)
    requires 0 < b
    ensures a / b >= 1 <==> a >= b
  {
  }

  /** Keeps a prefix of the results and picks a snippet allowance. Without a limit everything is kept.
      Otherwise, any way of filling the kept rows with snippets that encode to at most six bytes per allowed
      raw byte stays within the limit. */
  method ResultsWithinBudget(results: seq<Row>, maxBytes: int) returns (kept: seq<Row>, itemMaxBytes: int)
    ensures kept <= results
    ensures maxBytes <= 0 ==> kept == results && itemMaxBytes == maxBytes
    ensures maxBytes > 0 && kept != [] ==> itemMaxBytes >= 1
    ensures maxBytes > 0 && kept != [] ==> EncodedLength(ReserveAll(kept, 6 * itemMaxBytes)) <= maxBytes
    ensures maxBytes > 0 && kept != [] ==>
      forall fs | FillsAll(fs, kept, 6 * itemMaxBytes) :: EncodedLength(fs) <= maxBytes
    ensures maxBytes > 0 && kept == [] ==> itemMaxBytes == 0
    ensures maxBytes > 0 && kept != [] ==>
      itemMaxBytes == (maxBytes - EncodedLength(ReserveAll(kept, 1))) / (|kept| * 6)
    ensures maxBytes > 0 && |kept| < |results| ==> !Admits(results[..|kept| + 1], maxBytes)
  {
    hide Sum, ReserveAll, FillsAll, Reserve;
    if maxBytes <= 0 { return results, maxBytes; }
    ReserveNone();
    var budgeted: seq<Row> := [];
    kept := [];
    var i := 0;
    while i < |results|
      invariant i <= |results| && kept == results[..i] && budgeted == ReserveAll(kept, 1)
      invariant kept != [] ==> EncodedLength(budgeted) <= maxBytes
    {
      assert results[..i + 1] == kept + [results[i]];
      var candidate := budgeted + [Reserve(results[i], 1)];
      ReserveNext(kept, results[i], 1);
      if EncodedLength(candidate) > maxBytes { break; }
      kept, budgeted := kept + [results[i]], candidate;
      i := i + 1;
    }
    while kept != []
      invariant kept <= results && budgeted == ReserveAll(kept, 1)
      invariant kept != [] ==> EncodedLength(budgeted) <= maxBytes
      invariant |kept| < |results| ==> !Admits(results[..|kept| + 1], maxBytes)
      decreases |kept|
    {
      AllowanceAdmits(kept, maxBytes);
      itemMaxBytes := (maxBytes - EncodedLength(budgeted)) / (|budgeted| * 6);
      if itemMaxBytes >= 1 {
        AllowanceFits(kept, maxBytes, itemMaxBytes);
        budgeted := ReserveAll(kept, itemMaxBytes * 6);
        if EncodedLength(budgeted) <= maxBytes {
          forall fs | FillsAll(fs, kept, 6 * itemMaxBytes) ensures EncodedLength(fs) <= maxBytes {
            FilledFits(fs, kept, 6 * itemMaxBytes);
          }
          return;
        }
      }
      var last := |kept| - 1;
      assert kept == kept[..last] + [kept[last]] && results[..last + 1] == kept;
      ReserveNext(kept[..last], kept[last], 1);
      kept, budgeted := kept[..last], budgeted[..last];
    }
    itemMaxBytes := 0;
  }

  lemma ReserveNone()
    ensures ReserveAll([], 1) == []
  {
  }

  /** One row with an allowance of one byte. An excerpt that redaction made two bytes long, each of which needs
      six, does not fit any more. */
  method Overflow() returns (kept: seq<Row>, itemMaxBytes: int, sent: seq<Row>)
    ensures kept == [Row(0, [], [])] && itemMaxBytes == 1 && FillsAll(sent, kept, 6 * itemMaxBytes + 6)
    ensures EncodedLength(sent) > 100
  {
    hide ReserveAll, Reserve;
    var row := Row(0, [], []);
    ReserveOne(row);
    assert [row][..1] == [row];
    kept, itemMaxBytes := ResultsWithinBudget([row], 100);
    sent := [Row(0, Repeat(LOWER_E, 64), [Octet(1, true), Octet(1, true)])];
    SentLength();
  }

  lemma SumOne(r: Row)
    ensures EncodedLength([r]) == RowLength(r) + 6
  {
    hide RowLength;
    assert Sum([r][..0]) == 0;
  }

  lemma ReserveOne(r: Row)
    ensures EncodedLength(ReserveAll([r], 1)) == r.fixed + ID_FIELD + 71
  {
    assert ReserveAll([r], 1) == [Reserve(r, 1)];
    SumOne(Reserve(r, 1));
    ReserveLength(r, 1);
  }

  lemma SentLength()
    ensures var t := [Octet(1, true), Octet(1, true)];
      EscapedLength(Repeat(LOWER_E, 64)) == 64 && EscapedLength(t) == 12
      && EncodedLength([Row(0, Repeat(LOWER_E, 64), t)]) == 105
  {
    var t := [Octet(1, true), Octet(1, true)];
    assert t[..1] == [Octet(1, true)] && t[..1][..0] == [];
    RepeatLength(LOWER_E, 64);
    SumOne(Row(0, Repeat(LOWER_E, 64), t));
    assert Repeat(LOWER_E, 64) != [] by { assert |Repeat(LOWER_E, 64)| == 64; }
  }
}
