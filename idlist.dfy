/** The comma-joined decimal id list that RetrieveAnswer splices into its
    `SELECT answer FROM qa_pairs WHERE id IN (...)` statement, and the reading of that list
    back into ids that the database performs. */
module IdList {
  import opened Results
  import opened Strings

  const Digits: string := "0123456789"

  predicate IsDigit(c: char) {
    '0' <= c <= '9'
  }

  predicate AllDigits(s: string) {
    forall i :: 0 <= i < |s| ==> IsDigit(s[i])
  }

  /** Decimal rendering of a natural number, most significant digit first, no leading zeros. */
  function NatToDecimal(n: nat): (s: string)
    ensures |s| >= 1 && AllDigits(s)
    ensures s[0] == '0' ==> n == 0
    decreases n
  {
    if n < 10 then [Digits[n]] else NatToDecimal(n / 10) + [Digits[n % 10]]
  }

  /** Go's `fmt.Sprintf("%d", id)` for an int64: a minus sign before negative values. */
  function IntToDecimal(n: int): (s: string)
    ensures |s| >= 1 && ',' !in s
    ensures s[0] == '-' <==> n < 0
  {
    if n < 0 then "-" + NatToDecimal(-n) else NatToDecimal(n)
  }

  /** Value of a non-empty run of decimal digits. */
  function DigitsValue(s: string): nat
    requires |s| >= 1 && AllDigits(s)
    decreases |s|
  {
    var d := (s[|s| - 1] as int) - ('0' as int);
    if |s| == 1 then d else DigitsValue(s[..|s| - 1]) * 10 + d
  }

  /** How the database reads one element of the `IN (...)` list: an optional minus sign
      followed by at least one digit. */
  function ParseInt(s: string): Option<int> {
    if |s| >= 2 && s[0] == '-' && AllDigits(s[1..]) then Some(-(DigitsValue(s[1..]) as int))
    else if |s| >= 1 && AllDigits(s) then Some(DigitsValue(s))
    else None
  }

  lemma {:induction false} NatRoundTrip(n: nat)
    ensures DigitsValue(NatToDecimal(n)) == n
    decreases n
  {
    if n >= 10 {
      var s := NatToDecimal(n);
      assert s[..|s| - 1] == NatToDecimal(n / 10);
      NatRoundTrip(n / 10);
    }
  }

  /** Reading back the rendering of any int64 gives the int back. */
  lemma IntRoundTrip(n: int)
    ensures ParseInt(IntToDecimal(n)) == Some(n)
  {
    if n < 0 {
      var t := NatToDecimal(-n);
      var s := "-" + t;
      assert IntToDecimal(n) == s;
      assert |s| >= 2 && s[0] == '-' && s[1..] == t && AllDigits(t);
      NatRoundTrip(-n);
      assert DigitsValue(t) == -n;
    } else {
      var s := NatToDecimal(n);
      assert IntToDecimal(n) == s;
      assert IsDigit(s[0]);
      NatRoundTrip(n);
    }
  }

  /** Splitting on every comma, as a list parser does; the empty string is one empty part. */
  function Split(s: string): (parts: seq<string>)
    ensures |parts| >= 1
    ensures forall i :: 0 <= i < |parts| ==> ',' !in parts[i]
    decreases |s|
  {
    if |s| == 0 then [""]
    else
      var rest := Split(s[1..]);
      if s[0] == ',' then [""] + rest else [[s[0]] + rest[0]] + rest[1..]
  }

  lemma {:induction false} SplitWithoutComma(a: string)
    requires ',' !in a
    ensures Split(a) == [a]
    decreases |a|
  {
    if |a| > 0 {
      SplitWithoutComma(a[1..]);
      assert [a[0]] + a[1..] == a;
    }
  }

  lemma {:induction false} SplitAtComma(a: string, b: string)
    requires ',' !in a
    ensures Split(a + "," + b) == [a] + Split(b)
    decreases |a|
  {
    var s := a + "," + b;
    if |a| == 0 {
      assert s[1..] == b;
    } else {
      assert s[1..] == a[1..] + "," + b;
      SplitAtComma(a[1..], b);
      assert [a[0]] + a[1..] == a;
    }
  }

  /** Joining comma-free parts and splitting again gives the parts back. */
  lemma {:induction false} SplitJoin(parts: seq<string>)
    requires |parts| >= 1
    requires forall i :: 0 <= i < |parts| ==> ',' !in parts[i]
    ensures Split(Join(parts, ",")) == parts
    decreases |parts|
  {
    if |parts| == 1 {
      SplitWithoutComma(parts[0]);
    } else {
      SplitAtComma(parts[0], Join(parts[1..], ","));
      SplitJoin(parts[1..]);
      assert [parts[0]] + parts[1..] == parts;
    }
  }

  /** The decimal renderings of the ids, in order (the `idStrs` slice). */
  function Renderings(ids: seq<int>): (strs: seq<string>)
    ensures |strs| == |ids|
  {
    seq(|ids|, i requires 0 <= i < |ids| => IntToDecimal(ids[i]))
  }

  /** The id list text: every id, in retrieval order, duplicates kept, joined by ",". */
  function IdListText(ids: seq<int>): string {
    Join(Renderings(ids), ",")
  }

  function ParseAll(parts: seq<string>): Option<seq<int>>
    decreases |parts|
  {
    if |parts| == 0 then Some([])
    else match (ParseInt(parts[0]), ParseAll(parts[1..]))
      case (Some(n), Some(ns)) => Some([n] + ns)
      case _ => None
  }

  /** The database's reading of an `IN (...)` list; an empty or malformed element is a syntax error. */
  function ParseIdList(text: string): Option<seq<int>> {
    ParseAll(Split(text))
  }

  lemma {:induction false} ParseAllRenderings(ids: seq<int>)
    ensures ParseAll(Renderings(ids)) == Some(ids)
    decreases |ids|
  {
    if |ids| > 0 {
      assert Renderings(ids)[1..] == Renderings(ids[1..]);
      IntRoundTrip(ids[0]);
      ParseAllRenderings(ids[1..]);
      assert [ids[0]] + ids[1..] == ids;
    }
  }

  /** Round trip: splitting the id list on "," and parsing every part yields the id sequence,
      in the same order and with the same duplicates. */
  lemma IdListRoundTrip(ids: seq<int>)
    requires |ids| >= 1
    ensures ParseIdList(IdListText(ids)) == Some(ids)
  {
    SplitJoin(Renderings(ids));
    ParseAllRenderings(ids);
  }

  /** With no ids the list is empty and `IN ()` is not a valid query; this is why the retrieval
      returns before querying when no id was extracted. */
  lemma EmptyIdListIsMalformed()
    ensures IdListText([]) == ""
    ensures ParseIdList(IdListText([])) == None
  {
  }

  /** The loop of RetrieveAnswer that fills `idStrs := make([]string, len(ids))` by index and
      joins it. */
  method BuildIdList(ids: seq<int>) returns (idList: string)
    ensures idList == IdListText(ids)
    ensures |ids| >= 1 ==> ParseIdList(idList) == Some(ids)
  {
    var idStrs := new string[|ids|];
    for i := 0 to |ids|
      invariant forall j :: 0 <= j < i ==> idStrs[j] == IntToDecimal(ids[j])
    {
      idStrs[i] := IntToDecimal(ids[i]);
    }
    assert idStrs[..] == Renderings(ids);
    idList := Join(idStrs[..], ",");
    if |ids| >= 1 {
      IdListRoundTrip(ids);
    }
  }
}
