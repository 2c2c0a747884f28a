/** Reading game results off the rendered page: `extract_game_data`, the colour
    rule, and `get_current_period`. */
module Scanner {
  import opened Wrappers
  import opened PageText

  /** The binary outcome class shown on the page as `Big` or `Small`. */
  datatype Category = Big | Small

  datatype Color = Green | Red | Violet

  /** One extracted result: the `period`, `number`, `big_small` and `color` keys. */
  datatype Record = Record(period: string, number: int, bigSmall: Category, color: Color)

  /** The text under which a category appears on the page. */
  function Name(c: Category): string {
    match c
    case Big => "Big"
    case Small => "Small"
  }

  /** The category a line names, if it is exactly `Big` or `Small`. */
  function ParseCategory(line: string): (r: Option<Category>)
    ensures r.Some? <==> line == "Big" || line == "Small"
    ensures r.Some? ==> Name(r.value) == line
  {
    if line == "Big" then Some(Big)
    else if line == "Small" then Some(Small)
    else None
  }

  /** The colour of a drawn number: 0 is green, an odd number red, any other even number violet. */
  function ColorOf(n: int): (c: Color)
    requires 0 <= n
    ensures c == Green <==> n == 0
    ensures c == Red <==> n % 2 == 1
    ensures c == Violet <==> n != 0 && n % 2 == 0
  {
    if n == 0 then Green else if n % 2 == 1 then Red else Violet
  }

  /** A period identifier: exactly 17 ASCII digits. */
  predicate IsPeriod(s: string) {
    IsDigits(s) && |s| == 17
  }

  /** A period candidate with its spaces and dashes taken out. */
  function NormalizePeriod(line: string): string {
    Remove(Remove(line, ' '), '-')
  }

  /** Normalising deletes exactly the spaces and the dashes of a line. */
  lemma NormalizePeriodSpec(line: string)
    ensures var r := NormalizePeriod(line);
      ' ' !in r && '-' !in r && multiset(r) == multiset(line)[' ' := 0]['-' := 0]
  {
    var once := Remove(line, ' ');
    RemoveKeeps(line, ' ');
    RemoveKeeps(once, '-');
    assert ' ' !in NormalizePeriod(line) by {
      assert multiset(NormalizePeriod(line))[' '] == 0;
    }
  }

  /** What every emitted record satisfies. */
  predicate ValidRecord(r: Record) {
    IsPeriod(r.period) && 0 <= r.number <= 9 && r.color == ColorOf(r.number)
  }

  /** The test applied to one 3-line window: a period line, a number line (spaces
      removed, digits only, value 0..9) and a category line. */
  function ParseWindow(line1: string, line2: string, line3: string): Option<Record> {
    var period := NormalizePeriod(line1);
    var digits := Remove(line2, ' ');
    if IsPeriod(period) && IsDigits(digits) && DigitsValue(digits) <= 9 then
      match ParseCategory(line3)
      case Some(c) =>
        var n := DigitsValue(digits);
        Some(Record(period, n, c, ColorOf(n)))
      case None => None
    else None
  }

  /** A window is accepted exactly when its three lines pass their tests, and
      the record it gives is valid and carries the window's period and category. */
  lemma ParseWindowSpec(line1: string, line2: string, line3: string)
    ensures var r := ParseWindow(line1, line2, line3);
      (r.Some? <==>
        IsPeriod(NormalizePeriod(line1)) && IsDigits(Remove(line2, ' ')) &&
        DigitsValue(Remove(line2, ' ')) <= 9 && (line3 == "Big" || line3 == "Small")) &&
      (r.Some? ==>
        ValidRecord(r.value) && r.value.period == NormalizePeriod(line1) &&
        r.value.number == DigitsValue(Remove(line2, ' ')) && Name(r.value.bigSmall) == line3)
  {
  }

  /** A test that accepts a 3-line window as a record or rejects it. */
  type WindowTest = (string, string, string) -> Option<Record>

  /** The window starting at line `i`, tested. */
  function WindowAt(test: WindowTest, lines: seq<string>, i: nat): Option<Record>
    requires i + 2 < |lines|
  {
    test(lines[i], lines[i + 1], lines[i + 2])
  }

  /** The records the scan finds from line `i` on: an accepted window moves the
      scan 3 lines on, a rejected one 1 line. */
  function ScanFrom(test: WindowTest, lines: seq<string>, i: nat): (r: seq<Record>)
    requires i <= |lines|
    ensures 3 * |r| <= |lines| - i
    decreases |lines| - i
  {
    if i + 2 < |lines| then
      match WindowAt(test, lines, i)
      case Some(rec) => [rec] + ScanFrom(test, lines, i + 3)
      case None => ScanFrom(test, lines, i + 1)
    else []
  }

  /** Every record the scan emits has a 17-digit period, a number 0..9 and that number's colour. */
  lemma {:induction false} ScanValid(lines: seq<string>, i: nat)
    requires i <= |lines|
    ensures forall k :: 0 <= k < |ScanFrom(ParseWindow, lines, i)| ==> ValidRecord(ScanFrom(ParseWindow, lines, i)[k])
    decreases |lines| - i
  {
    if i + 2 < |lines| {
      match WindowAt(ParseWindow, lines, i)
      case Some(rec) =>
        ParseWindowSpec(lines[i], lines[i + 1], lines[i + 2]);
        ScanValid(lines, i + 3);
        var tail := ScanFrom(ParseWindow, lines, i + 3);
        assert ScanFrom(ParseWindow, lines, i) == [rec] + tail;
        forall k | 0 < k < |tail| + 1 ensures ValidRecord(ScanFrom(ParseWindow, lines, i)[k]) {
          assert ScanFrom(ParseWindow, lines, i)[k] == tail[k - 1];
        }
      case None =>
        ScanValid(lines, i + 1);
    }
  }

  /** The first lines of the windows the scan accepts from line `i` on. */
  function StartsFrom(test: WindowTest, lines: seq<string>, i: nat): (s: seq<nat>)
    requires i <= |lines|
    ensures forall k :: 0 <= k < |s| ==> i <= s[k] && s[k] + 2 < |lines|
    decreases |lines| - i
  {
    if i + 2 < |lines| then
      match WindowAt(test, lines, i)
      case Some(_) => [i] + StartsFrom(test, lines, i + 3)
      case None => StartsFrom(test, lines, i + 1)
    else []
  }

  /** Accepted windows come in line order and never overlap: each starts at
      least three lines after the one before it. */
  lemma {:induction false} StartsOrdered(test: WindowTest, lines: seq<string>, i: nat)
    requires i <= |lines|
    ensures forall k, l :: 0 <= k < l < |StartsFrom(test, lines, i)| ==>
      StartsFrom(test, lines, i)[k] + 3 <= StartsFrom(test, lines, i)[l]
    decreases |lines| - i
  {
    if i + 2 < |lines| {
      match WindowAt(test, lines, i)
      case Some(_) =>
        StartsOrdered(test, lines, i + 3);
        var tail := StartsFrom(test, lines, i + 3);
        var starts := StartsFrom(test, lines, i);
        assert starts == [i] + tail;
        forall k, l | 0 <= k < l < |starts| ensures starts[k] + 3 <= starts[l] {
          assert starts[l] == tail[l - 1];
          if k > 0 {
            assert starts[k] == tail[k - 1];
          }
        }
      case None =>
        StartsOrdered(test, lines, i + 1);
    }
  }

  /** A line lies inside one of the accepted windows. */
  predicate Covered(starts: seq<nat>, j: nat) {
    exists k :: 0 <= k < |starts| && starts[k] <= j < starts[k] + 3
  }

  /** The k-th record is read from the k-th accepted window; with the ordering
      that `StartsFrom` promises, records come in line order from windows that
      never overlap. */
  lemma {:induction false} ScanWindows(test: WindowTest, lines: seq<string>, i: nat)
    requires i <= |lines|
    ensures |ScanFrom(test, lines, i)| == |StartsFrom(test, lines, i)|
    ensures forall k :: 0 <= k < |StartsFrom(test, lines, i)| ==>
      WindowAt(test, lines, StartsFrom(test, lines, i)[k]) == Some(ScanFrom(test, lines, i)[k])
    decreases |lines| - i
  {
    if i + 2 < |lines| {
      match WindowAt(test, lines, i)
      case Some(rec) =>
        ScanWindows(test, lines, i + 3);
        var recs, starts := ScanFrom(test, lines, i + 3), StartsFrom(test, lines, i + 3);
        var recs', starts' := ScanFrom(test, lines, i), StartsFrom(test, lines, i);
        assert recs' == [rec] + recs;
        assert starts' == [i] + starts;
        forall k | 0 <= k < |starts'|
          ensures WindowAt(test, lines, starts'[k]) == Some(recs'[k])
        {
          if k > 0 {
            assert starts'[k] == starts[k - 1];
            assert recs'[k] == recs[k - 1];
          }
        }
      case None =>
        ScanWindows(test, lines, i + 1);
    }
  }

  /** Re-synchronisation: every window the scan passes over that does not lie
      inside an accepted window was rejected. */
  lemma {:induction false} ScanSkipsOnlyRejected(test: WindowTest, lines: seq<string>, i: nat, j: nat)
    requires i <= j && j + 2 < |lines|
    requires !Covered(StartsFrom(test, lines, i), j)
    ensures WindowAt(test, lines, j) == None
    decreases |lines| - i
  {
    var starts := StartsFrom(test, lines, i);
    match WindowAt(test, lines, i)
    case Some(_) =>
      var tail := StartsFrom(test, lines, i + 3);
      assert starts == [i] + tail;
      assert !(starts[0] <= j < starts[0] + 3);
      forall k | 0 <= k < |tail| ensures !(tail[k] <= j < tail[k] + 3) {
        assert tail[k] == starts[k + 1];
      }
      ScanSkipsOnlyRejected(test, lines, i + 3, j);
    case None =>
      if j > i {
        ScanSkipsOnlyRejected(test, lines, i + 1, j);
      }
  }

  /** `extract_game_data`: split the page into trimmed non-empty lines and slide a
      3-line window over them. */
  method ExtractGameData(pageText: string) returns (data: seq<Record>)
    ensures data == ScanFrom(ParseWindow, PageLines(pageText), 0)
    ensures 3 * |data| <= |PageLines(pageText)|
    ensures forall k :: 0 <= k < |data| ==> ValidRecord(data[k])
  {
    data := ScanLines(PageLines(pageText));
    ScanValid(PageLines(pageText), 0);
  }

  /** The sliding-window loop of `extract_game_data` over the page's lines. */
  method ScanLines(lines: seq<string>) returns (data: seq<Record>)
    ensures data == ScanFrom(ParseWindow, lines, 0)
  {
    data := [];
    var i := 0;
    while i < |lines| - 2
      invariant 0 <= i <= |lines|
      invariant data + ScanFrom(ParseWindow, lines, i) == ScanFrom(ParseWindow, lines, 0)
      decreases |lines| - i
    {
      ParseWindowSpec(lines[i], lines[i + 1], lines[i + 2]);
      var line1 := NormalizePeriod(lines[i]);
      var line2 := Remove(lines[i + 1], ' ');
      var line3 := lines[i + 2];
      if IsPeriod(line1) && IsDigits(line2) && DigitsValue(line2) <= 9 && (line3 == "Big" || line3 == "Small") {
        var n := DigitsValue(line2);
        var c := if line3 == "Big" then Big else Small;
        var rec := Record(line1, n, c, ColorOf(n));
        assert WindowAt(ParseWindow, lines, i) == Some(rec);
        assert ScanFrom(ParseWindow, lines, i) == [rec] + ScanFrom(ParseWindow, lines, i + 3);
        data := data + [rec];
        i := i + 3;
      } else {
        assert WindowAt(ParseWindow, lines, i) == None;
        assert ScanFrom(ParseWindow, lines, i) == ScanFrom(ParseWindow, lines, i + 1);
        i := i + 1;
      }
    }
  }

  /** The three page lines a valid record is displayed as. */
  function RecordLines(r: Record): seq<string>
    requires ValidRecord(r)
  {
    [r.period, [DigitChar(r.number)], Name(r.bigSmall)]
  }

  /** The lines of a list of records, in order. */
  function Render(recs: seq<Record>): (lines: seq<string>)
    requires forall k :: 0 <= k < |recs| ==> ValidRecord(recs[k])
    ensures |lines| == 3 * |recs|
  {
    if |recs| == 0 then [] else RecordLines(recs[0]) + Render(recs[1..])
  }

  /** Shifting the scan's start and the lines together changes nothing. */
  lemma {:induction false} ScanDrop(test: WindowTest, lines: seq<string>, d: nat, i: nat)
    requires d <= i <= |lines|
    ensures ScanFrom(test, lines, i) == ScanFrom(test, lines[d..], i - d)
    decreases |lines| - i
  {
    if i + 2 < |lines| {
      var rest := lines[d..];
      var j := i - d;
      assert rest[j] == lines[i] && rest[j + 1] == lines[i + 1] && rest[j + 2] == lines[i + 2];
      assert WindowAt(test, lines, i) == WindowAt(test, rest, j);
      match WindowAt(test, lines, i)
      case Some(r) =>
        ScanDrop(test, lines, d, i + 3);
        assert ScanFrom(test, lines, i) == [r] + ScanFrom(test, lines, i + 3);
        assert ScanFrom(test, rest, j) == [r] + ScanFrom(test, rest, j + 3);
      case None =>
        ScanDrop(test, lines, d, i + 1);
        assert ScanFrom(test, lines, i) == ScanFrom(test, lines, i + 1);
        assert ScanFrom(test, rest, j) == ScanFrom(test, rest, j + 1);
    }
  }

  /** Rendering records and scanning the lines gives the records back. */
  lemma {:induction false} ScanRender(recs: seq<Record>)
    requires forall k :: 0 <= k < |recs| ==> ValidRecord(recs[k])
    ensures ScanFrom(ParseWindow, Render(recs), 0) == recs
  {
    if |recs| > 0 {
      var r := recs[0];
      var lines := Render(recs);
      var tail := Render(recs[1..]);
      assert lines == RecordLines(r) + tail;
      assert ' ' !in r.period && '-' !in r.period by {
        assert forall x :: x in r.period ==> IsDigit(x);
      }
      assert NormalizePeriod(lines[0]) == r.period;
      var digit := DigitChar(r.number);
      assert Remove(lines[1], ' ') == [digit];
      assert WindowAt(ParseWindow, lines, 0) == Some(r) by {
        match r.bigSmall
        case Big =>
        case Small =>
      }
      ScanDrop(ParseWindow, lines, 3, 3);
      assert lines[3..] == tail;
      ScanRender(recs[1..]);
      assert [r] + recs[1..] == recs;
    }
  }

  /** A page showing valid records, one field per line, is read back exactly. */
  lemma ExtractRoundTrip(recs: seq<Record>)
    requires forall k :: 0 <= k < |recs| ==> ValidRecord(recs[k])
    ensures ScanFrom(ParseWindow, PageLines(Join(Render(recs))), 0) == recs
  {
    var lines := Render(recs);
    forall k | 0 <= k < |lines|
      ensures lines[k] != "" && IsStripped(lines[k]) && '\n' !in lines[k]
    {
      RenderLine(recs, k);
    }
    PageLinesJoin(lines);
    ScanRender(recs);
  }

  lemma {:induction false} RenderLine(recs: seq<Record>, k: nat)
    requires forall j :: 0 <= j < |recs| ==> ValidRecord(recs[j])
    requires k < 3 * |recs|
    ensures var line := Render(recs)[k]; line != "" && IsStripped(line) && '\n' !in line
  {
    var r := recs[0];
    if k < 3 {
      assert Render(recs)[k] == RecordLines(r)[k];
      if k == 0 {
        assert IsDigit(r.period[0]) && IsDigit(r.period[16]);
        assert forall x :: x in r.period ==> IsDigit(x);
      }
    } else {
      RenderLine(recs[1..], k - 3);
      assert Render(recs)[k] == Render(recs[1..])[k - 3];
    }
  }

  /** A page line as `get_current_period` tests it: stripped, then spaces and dashes removed. */
  function PeriodCandidate(line: string): string {
    NormalizePeriod(Strip(line))
  }

  /** The first line that reads as a period, if any. */
  function FirstPeriod(lines: seq<string>): (r: Option<string>)
    ensures r.Some? ==> IsPeriod(r.value)
  {
    if |lines| == 0 then None
    else if IsPeriodLine(lines[0]) then Some(PeriodCandidate(lines[0]))
    else FirstPeriod(lines[1..])
  }

  /** A page line that `get_current_period` accepts. */
  predicate IsPeriodLine(line: string) {
    IsPeriod(PeriodCandidate(line))
  }

  /** `FirstPeriod` finds nothing exactly when no line is a period. */
  lemma {:induction false} FirstPeriodNone(lines: seq<string>)
    ensures FirstPeriod(lines).None? <==> forall k :: 0 <= k < |lines| ==> !IsPeriodLine(lines[k])
  {
    if |lines| > 0 {
      FirstPeriodNone(lines[1..]);
      assert forall k :: 0 < k < |lines| ==> lines[k] == lines[1..][k - 1];
    }
  }

  /** When line `k` is the first period line, `FirstPeriod` is its candidate. */
  lemma {:induction false} FirstPeriodAt(lines: seq<string>, k: nat)
    requires k < |lines| && IsPeriodLine(lines[k])
    requires forall j :: 0 <= j < k ==> !IsPeriodLine(lines[j])
    ensures FirstPeriod(lines) == Some(PeriodCandidate(lines[k]))
  {
    if k > 0 {
      var rest := lines[1..];
      assert !IsPeriodLine(lines[0]);
      assert FirstPeriod(lines) == FirstPeriod(rest);
      assert rest[k - 1] == lines[k];
      forall j | 0 <= j < k - 1 ensures !IsPeriodLine(rest[j]) {
        assert rest[j] == lines[j + 1];
      }
      FirstPeriodAt(rest, k - 1);
    }
  }

  /** `get_current_period`: the first line of the page that normalises to a period. */
  method GetCurrentPeriod(pageText: string) returns (period: Option<string>)
    ensures period == FirstPeriod(Split(pageText))
    ensures period.Some? ==> IsPeriod(period.value)
  {
    var lines := Split(pageText);
    var i := 0;
    assert lines[0..] == lines;
    while i < |lines|
      invariant 0 <= i <= |lines|
      invariant FirstPeriod(lines[i..]) == FirstPeriod(lines)
    {
      var line := PeriodCandidate(lines[i]);
      if IsPeriod(line) {
        assert lines[i..][0] == lines[i];
        return Some(line);
      }
      assert lines[i..][1..] == lines[i + 1..];
      i := i + 1;
    }
    return None;
  }
}
