/** `--select START-END` values: `parse_ranges` and the `"{:d}-{:d}"` formatter. */
module Ranges {
  import opened Wrappers
  import opened Text

  /** A closed LBA interval for a selective self-test. */
  datatype Range = Range(start: int, end: int)

  /** The ValueErrors `parse_ranges` raises, with the item after comma removal. */
  datatype RangeError =
    | WrongShape(item: string)         // not exactly one '-'
    | NotInteger(item: string)         // a part is not a decimal number
    | Inverted(start: int, end: int)   // end < start

  /** `"{:d}-{:d}".format(start, end)`, the `rng` string of a selective test. */
  function FormatRange(r: Range): string {
    IntToString(r.start) + "-" + IntToString(r.end)
  }

  /** One iteration of the loop in `parse_ranges`. */
  function ParseItem(item: string): (r: Result<Range, RangeError>)
    ensures r.Ok? ==> 0 <= r.value.start <= r.value.end
    ensures r.Err? && r.error.WrongShape? <==> |Split(RemoveChar(item, ','), '-')| != 2
    ensures r.Err? && r.error.WrongShape? <==> Occurrences(RemoveChar(item, ','), '-') != 1
  {
    var cleaned := RemoveChar(item, ',');
    var parts := Split(cleaned, '-');
    if |parts| != 2 then Err(WrongShape(cleaned))
    else if !IsDigits(parts[0]) || !IsDigits(parts[1]) then Err(NotInteger(cleaned))
    else
      var start, end := DigitsValue(parts[0]), DigitsValue(parts[1]);
      if end < start then Err(Inverted(start, end)) else Ok(Range(start, end))
  }

  /** The entries of `select_list or []`. */
  function Items(selectList: Option<seq<string>>): seq<string> {
    if selectList.Some? then selectList.value else []
  }

  /** `parse_ranges` on a list: the ranges in input order, or the first entry's error. */
  function ParseAll(items: seq<string>): Result<seq<Range>, RangeError>
    decreases |items|
  {
    if items == [] then Ok([])
    else match ParseItem(items[0])
      case Err(e) => Err(e)
      case Ok(r) =>
        match ParseAll(items[1..])
        case Err(e) => Err(e)
        case Ok(rs) => Ok([r] + rs)
  }

  /** `acc` followed by what the rest of the list parses to. */
  function Prefixed(acc: seq<Range>, rest: Result<seq<Range>, RangeError>): Result<seq<Range>, RangeError> {
    match rest
    case Err(e) => Err(e)
    case Ok(rs) => Ok(acc + rs)
  }

  /** One more entry of the list: its error ends the parse, its range moves into the prefix. */
  lemma ParseStep(acc: seq<Range>, items: seq<string>, i: int)
    requires 0 <= i < |items|
    ensures ParseItem(items[i]).Err? ==> Prefixed(acc, ParseAll(items[i..])) == Err(ParseItem(items[i]).error)
    ensures ParseItem(items[i]).Ok? ==>
              Prefixed(acc, ParseAll(items[i..])) == Prefixed(acc + [ParseItem(items[i]).value], ParseAll(items[i + 1..]))
  {
    assert items[i..][1..] == items[i + 1..] && items[i..][0] == items[i];
    if ParseItem(items[i]).Ok? && ParseAll(items[i + 1..]).Ok? {
      var range, rs := ParseItem(items[i]).value, ParseAll(items[i + 1..]).value;
      assert acc + ([range] + rs) == (acc + [range]) + rs;
    }
  }

  /** `parse_ranges(select_list)`, appending one tuple per entry. */
  method ParseRanges(selectList: Option<seq<string>>) returns (r: Result<seq<Range>, RangeError>)
    ensures r == ParseAll(Items(selectList))
    ensures r.Ok? ==> |r.value| == |Items(selectList)|
    ensures Items(selectList) == [] ==> r == Ok([])
  {
    var items := Items(selectList);
    var ranges: seq<Range> := [];
    var i := 0;
    assert items[0..] == items;
    assert Prefixed([], ParseAll(items)) == ParseAll(items) by {
      if ParseAll(items).Ok? { assert [] + ParseAll(items).value == ParseAll(items).value; }
    }
    while i < |items|
      invariant 0 <= i <= |items| && |ranges| == i
      invariant ParseAll(items) == Prefixed(ranges, ParseAll(items[i..]))
    {
      ParseStep(ranges, items, i);
      match ParseItem(items[i]) {
        case Err(e) =>
          return Err(e);
        case Ok(range) =>
          ranges := ranges + [range];
      }
      i := i + 1;
    }
    assert items[i..] == [];
    assert ranges + [] == ranges;
    return Ok(ranges);
  }

  /** Success gives one range per entry, in order; failure is the first failing entry's error. */
  lemma {:induction false} ParseAllShape(items: seq<string>)
    ensures ParseAll(items).Ok? <==> forall i :: 0 <= i < |items| ==> ParseItem(items[i]).Ok?
    ensures ParseAll(items).Ok? ==>
              |ParseAll(items).value| == |items| &&
              forall i :: 0 <= i < |items| ==> ParseItem(items[i]) == Ok(ParseAll(items).value[i])
    ensures ParseAll(items).Err? ==>
              exists i :: 0 <= i < |items| && ParseItem(items[i]) == Err(ParseAll(items).error) &&
                          forall j :: 0 <= j < i ==> ParseItem(items[j]).Ok?
    decreases |items|
  {
    if items != [] {
      var tail := items[1..];
      ParseAllShape(tail);
      assert forall i :: 0 < i < |items| ==> items[i] == tail[i - 1];
      if ParseItem(items[0]).Ok? && ParseAll(tail).Err? {
        var i :| 0 <= i < |tail| && ParseItem(tail[i]) == Err(ParseAll(tail).error) &&
                 forall j :: 0 <= j < i ==> ParseItem(tail[j]).Ok?;
        assert ParseItem(items[i + 1]) == Err(ParseAll(items).error);
        assert forall j :: 0 <= j < i + 1 ==> ParseItem(items[j]).Ok?;
      }
      if ParseItem(items[0]).Err? {
        assert ParseItem(items[0]) == Err(ParseAll(items).error);
      }
    }
  }

  /** Every range `parse_ranges` returns satisfies 0 <= start <= end. */
  lemma ParseAllBounds(items: seq<string>)
    requires ParseAll(items).Ok?
    ensures forall i :: 0 <= i < |ParseAll(items).value| ==>
              0 <= ParseAll(items).value[i].start <= ParseAll(items).value[i].end
  {
    ParseAllShape(items);
  }

  /** Formatting a range as "{s}-{e}" and parsing it back gives the range. */
  lemma FormatParseRoundTrip(r: Range)
    requires 0 <= r.start <= r.end
    ensures ParseItem(FormatRange(r)) == Ok(r)
    ensures ParseAll([FormatRange(r)]) == Ok([r])
  {
    var a, b := NatToString(r.start), NatToString(r.end);
    var f := FormatRange(r);
    assert f == a + ['-'] + b by {
      assert IntToString(r.start) == a && IntToString(r.end) == b;
    }
    NoSeparators(a);
    NoSeparators(b);
    assert ',' !in f;
    RemoveCharAbsent(f, ',');
    SplitAt(a, b, '-');
    SplitAbsent(b, '-');
    assert Split(RemoveChar(f, ','), '-') == [a, b];
    DigitsRoundTrip(r.start);
    DigitsRoundTrip(r.end);
    assert ParseItem(f) == Ok(r);
    assert [f][1..] == [] && [f][0] == f;
    assert [r] + [] == [r];
  }

  lemma NoSeparators(s: string)
    requires IsDigits(s)
    ensures '-' !in s && ',' !in s
  {
  }

  /** Commas anywhere in an entry do not change what it parses to. */
  lemma {:induction false} RemoveCharIdempotent(s: string, c: char)
    ensures RemoveChar(RemoveChar(s, c), c) == RemoveChar(s, c)
  {
    RemoveCharAbsent(RemoveChar(s, c), c);
  }

  lemma CommasIgnored(item: string)
    ensures ParseItem(item) == ParseItem(RemoveChar(item, ','))
  {
    RemoveCharIdempotent(item, ',');
  }

  /** An entry that is "{s}-{e}" once its commas are removed parses to exactly [(s, e)]. */
  lemma FormatWithCommasParses(item: string, r: Range)
    requires 0 <= r.start <= r.end
    requires RemoveChar(item, ',') == FormatRange(r)
    ensures ParseAll([item]) == Ok([r])
  {
    CommasIgnored(item);
    FormatParseRoundTrip(r);
    assert [item][1..] == [];
  }
}
