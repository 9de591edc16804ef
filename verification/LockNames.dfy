/** The editable text of lock user names, one `id=name` per line, and the mapping it stands for. */
module LockNames {
  import opened Wrappers
  import opened Text
  import opened Sorting

  // ---- Lines ----

  predicate Unbroken(text: string) {
    forall i | 0 <= i < |text| :: !IsBreak(text[i])
  }

  /** No occurrence of a character. */
  predicate Lacks(text: string, c: char) {
    forall i | 0 <= i < |text| :: text[i] != c
  }

  function FirstBreak(text: string): (n: nat)
    ensures n <= |text| && (forall i | 0 <= i < n :: !IsBreak(text[i])) && (n < |text| ==> IsBreak(text[n]))
  {
    if text == "" || IsBreak(text[0]) then 0 else 1 + FirstBreak(text[1..])
  }

  /** `splitlines`: a carriage return and line feed together end one line, and no empty last line is made. */
  function Lines(text: string): (lines: seq<string>)
    ensures forall line | line in lines :: Unbroken(line)
    decreases |text|
  {
    if text == "" then []
    else
      var n := FirstBreak(text);
      var width := if text[n..] == "" then 0 else if "\r\n" <= text[n..] then 2 else 1;
      [text[..n]] + Lines(text[n + width..])
  }

  function Join(lines: seq<string>): string {
    if lines == [] then "" else if |lines| == 1 then lines[0] else lines[0] + "\n" + Join(lines[1..])
  }

  predicate IsLine(line: string) {
    line != "" && Unbroken(line)
  }

  lemma LinesStep(line: string, rest: string)
    requires IsLine(line)
    ensures Lines(line) == [line]
    ensures Lines(line + "\n" + rest) == [line] + Lines(rest)
  {
    assert FirstBreak(line) == |line| && line[|line| + 0..] == "" && line[|line|..] == "" && line[..|line|] == line;
    assert Lines("") == [];
    var text := line + "\n" + rest;
    var n := FirstBreak(text);
    assert text[|line|] == '\n' && forall i | 0 <= i < |line| :: text[i] == line[i];
    assert n == |line| && text[n..][0] == '\n' && text[n + 1..] == rest && text[..n] == line;
  }

  lemma {:induction false} LinesInvertJoin(lines: seq<string>)
    requires forall line | line in lines :: IsLine(line)
    ensures Lines(Join(lines)) == lines
  {
    if lines != [] {
      assert lines[0] in lines;
      LinesStep(lines[0], Join(lines[1..]));
      LinesInvertJoin(lines[1..]);
      assert lines == [lines[0]] + lines[1..];
    }
  }

  // ---- One line ----

  function Find(text: string, c: char): (n: nat)
    ensures n <= |text| && (forall i | 0 <= i < n :: text[i] != c) && (n < |text| ==> text[n] == c)
  {
    if text == "" || text[0] == c then 0 else 1 + Find(text[1..], c)
  }

  /** Where the line is split: at its first equals sign, or without one at its first colon. */
  function SeparatorAt(line: string): (n: nat)
    ensures n <= |line| && Lacks(line[..n], '=')
  {
    if '=' in line then Find(line, '=') else Find(line, ':')
  }

  function Pair(left: string, right: string): Option<(string, string)> {
    var id, name := Strip(left), Strip(right);
    if id != "" && name != "" then Some((id, name)) else None
  }

  function ParseLine(raw: string): Option<(string, string)> {
    var line := Strip(raw);
    var n := SeparatorAt(line);
    if n == |line| then None else Pair(line[..n], line[n + 1..])
  }

  /** Neither part is empty, padded or broken over lines, and the id has no equals sign. */
  predicate IsClean(item: (string, string)) {
    && item.0 != "" && Stripped(item.0) && item.1 != "" && Stripped(item.1)
    && Lacks(item.0, '=')
    && Unbroken(item.0) && Unbroken(item.1)
  }

  function FormatItem(item: (string, string)): string {
    item.0 + "=" + item.1
  }

  lemma SliceKeeps(text: string, from: nat, to: nat, c: char)
    requires from <= to <= |text|
    ensures Unbroken(text) ==> Unbroken(text[from..to])
    ensures Lacks(text, c) ==> Lacks(text[from..to], c)
  {
    assert forall i | 0 <= i < to - from :: text[from..to][i] == text[from + i];
  }

  lemma StripKeeps(text: string, c: char)
    ensures Unbroken(text) ==> Unbroken(Strip(text))
    ensures Lacks(text, c) ==> Lacks(Strip(text), c)
    ensures Stripped(Strip(text))
  {
    var from, to := StripIsSlice(text);
    SliceKeeps(text, from, to, c);
    StripGivesStripped(text);
  }

  lemma PairIsClean(left: string, right: string)
    requires Unbroken(left) && Unbroken(right) && Lacks(left, '=') && Pair(left, right).Some?
    ensures IsClean(Pair(left, right).value)
  {
    StripKeeps(left, '=');
    StripKeeps(right, '=');
  }

  lemma ParseLineIsClean(raw: string)
    requires Unbroken(raw) && ParseLine(raw).Some?
    ensures IsClean(ParseLine(raw).value)
  {
    var line := Strip(raw);
    var n := SeparatorAt(line);
    StripKeeps(raw, '=');
    SliceKeeps(line, 0, n, '=');
    SliceKeeps(line, n + 1, |line|, '=');
    PairIsClean(line[..n], line[n + 1..]);
  }

  lemma FormatItemIsLine(item: (string, string))
    requires IsClean(item)
    ensures IsLine(FormatItem(item)) && Stripped(FormatItem(item))
  {
    var line, n := FormatItem(item), |item.0|;
    assert forall i | 0 <= i < |line| :: line[i] == if i < n then item.0[i] else if i == n then '=' else item.1[i - n - 1];
    assert !IsBreak('=');
  }

  lemma FindEquals(id: string, name: string)
    requires Lacks(id, '=')
    ensures SeparatorAt(id + "=" + name) == |id|
  {
    var line := id + "=" + name;
    assert line[|id|] == '=' && '=' in line;
    assert forall i | 0 <= i < |id| :: line[i] == id[i];
  }

  lemma PairInvertsFormat(item: (string, string))
    requires IsClean(item)
    ensures Pair(item.0, item.1) == Some(item)
  {
    StripIsIdentityOnStripped(item.0);
    StripIsIdentityOnStripped(item.1);
  }

  lemma ParseLineInvertsFormat(item: (string, string))
    requires IsClean(item)
    ensures ParseLine(FormatItem(item)) == Some(item)
  {
    var line, n := FormatItem(item), |item.0|;
    FormatItemIsLine(item);
    StripIsIdentityOnStripped(line);
    FindEquals(item.0, item.1);
    assert line[..n] == item.0 && line[n + 1..] == item.1;
    PairInvertsFormat(item);
  }

  // ---- Parsing ----

  function Added(names: map<string, string>, item: Option<(string, string)>): map<string, string> {
    if item.Some? then names[item.value.0 := item.value.1] else names
  }

  /** Later lines overwrite earlier ones; lines that do not parse are skipped. */
  function Collected(items: seq<Option<(string, string)>>): map<string, string> {
    if items == [] then map[] else Added(Collected(items[..|items| - 1]), items[|items| - 1])
  }

  function ParseLines(lines: seq<string>): (items: seq<Option<(string, string)>>)
    ensures |items| == |lines| && forall i | 0 <= i < |lines| :: items[i] == ParseLine(lines[i])
  {
    seq(|lines|, i requires 0 <= i < |lines| => ParseLine(lines[i]))
  }

  function Parsed(text: string): map<string, string> {
    Collected(ParseLines(Lines(text)))
  }

  lemma CollectedPrefix(items: seq<Option<(string, string)>>, i: nat)
    requires i < |items|
    ensures Collected(items[..i + 1]) == Added(Collected(items[..i]), items[i])
  {
    assert items[..i + 1][..i] == items[..i];
  }

  method Parse(text: string) returns (names: map<string, string>)
    ensures names == Parsed(text)
  {
    names := map[];
    var lines := Lines(text);
    ghost var items := ParseLines(lines);
    for i := 0 to |lines|
      invariant names == Collected(items[..i])
    {
      CollectedPrefix(items, i);
      var item := ParseLine(lines[i]);
      if item.Some? {
        var (id, name) := item.value;
        names := names[id := name];
      }
    }
    assert items[..|lines|] == items;
  }

  predicate AllClean(names: map<string, string>) {
    forall id | id in names :: IsClean((id, names[id]))
  }

  lemma {:induction false} CollectedIsClean(items: seq<Option<(string, string)>>)
    requires forall i | 0 <= i < |items| :: items[i].Some? ==> IsClean(items[i].value)
    ensures AllClean(Collected(items))
  {
    if items != [] {
      CollectedIsClean(items[..|items| - 1]);
    }
  }

  /** Whatever the text, every id and name that it yields is clean. */
  lemma ParsedIsClean(text: string)
    ensures AllClean(Parsed(text))
  {
    var lines := Lines(text);
    var items := ParseLines(lines);
    forall i | 0 <= i < |items| && items[i].Some? ensures IsClean(items[i].value) {
      assert lines[i] in lines;
      ParseLineIsClean(lines[i]);
    }
    CollectedIsClean(items);
  }

  // ---- Formatting ----

  /** Numeric ids first, then by id; what counts as numeric is `str.isdigit`. */
  predicate Earlier(isDigit: string -> bool, a: (string, string), b: (string, string)) {
    if isDigit(a.0) != isDigit(b.0) then isDigit(a.0) else Before(a.0, b.0)
  }

  lemma EarlierOrders(isDigit: string -> bool, names: map<string, string>)
    ensures StrictlyOrders((a, b) => Earlier(isDigit, a, b), names.Items)
  {
    var less := (a, b) => Earlier(isDigit, a, b);
    forall a, b | a in names.Items && b in names.Items && a != b ensures less(a, b) || less(b, a) {
      BeforeIsTotal(a.0, b.0);
    }
    forall a, b, c | a in names.Items && b in names.Items && c in names.Items && less(a, b) && less(b, c)
      ensures less(a, c)
    {
      if isDigit(a.0) == isDigit(b.0) == isDigit(c.0) {
        BeforeIsTransitive(a.0, b.0, c.0);
      }
    }
  }

  /** The items of a mapping in formatting order. */
  ghost predicate Lists(isDigit: string -> bool, names: map<string, string>, items: seq<(string, string)>) {
    && |items| == |names|
    && (forall i, j | 0 <= i < j < |items| :: Earlier(isDigit, items[i], items[j]))
    && (forall item :: item in items <==> item in names.Items)
  }

  function FormatItems(items: seq<(string, string)>): (lines: seq<string>)
    ensures |lines| == |items| && forall i | 0 <= i < |items| :: lines[i] == FormatItem(items[i])
  {
    seq(|items|, i requires 0 <= i < |items| => FormatItem(items[i]))
  }

  ghost predicate IsFormat(isDigit: string -> bool, names: map<string, string>, text: string) {
    exists items: seq<(string, string)> :: Lists(isDigit, names, items) && text == Join(FormatItems(items))
  }

  method Format(isDigit: string -> bool, names: map<string, string>) returns (text: string)
    ensures IsFormat(isDigit, names, text)
  {
    EarlierOrders(isDigit, names);
    var items := Sort(names.Items, (a, b) => Earlier(isDigit, a, b));
    assert |names.Items| == |names|;
    assert Lists(isDigit, names, items);
    text := Join(FormatItems(items));
  }

  // ---- There and back ----

  function Somes(items: seq<(string, string)>): (r: seq<Option<(string, string)>>)
    ensures |r| == |items| && forall i | 0 <= i < |items| :: r[i] == Some(items[i])
  {
    seq(|items|, i requires 0 <= i < |items| => Some(items[i]))
  }

  lemma {:induction false} CollectedSomes(items: seq<(string, string)>)
    requires forall i, j | 0 <= i < j < |items| :: items[i].0 != items[j].0
    ensures forall id | id in Collected(Somes(items)) :: (id, Collected(Somes(items))[id]) in items
    ensures forall item | item in items :: item.0 in Collected(Somes(items)) && Collected(Somes(items))[item.0] == item.1
  {
    if items != [] {
      var front, last := items[..|items| - 1], items[|items| - 1];
      assert Somes(items)[..|items| - 1] == Somes(front);
      CollectedSomes(front);
      assert items == front + [last];
    }
  }

  lemma LinesOfFormat(items: seq<(string, string)>)
    requires forall item | item in items :: IsClean(item)
    ensures ParseLines(Lines(Join(FormatItems(items)))) == Somes(items)
  {
    var lines := FormatItems(items);
    forall i | 0 <= i < |items| ensures IsLine(lines[i]) && ParseLine(lines[i]) == Some(items[i]) {
      assert items[i] in items;
      FormatItemIsLine(items[i]);
      ParseLineInvertsFormat(items[i]);
    }
    LinesInvertJoin(lines);
  }

  lemma FormatThenParse(isDigit: string -> bool, names: map<string, string>, items: seq<(string, string)>)
    requires AllClean(names) && Lists(isDigit, names, items)
    ensures Parsed(Join(FormatItems(items))) == names
  {
    forall item | item in items ensures IsClean(item) {
      assert item in names.Items;
    }
    LinesOfFormat(items);
    forall i, j | 0 <= i < j < |items| ensures items[i].0 != items[j].0 {
      BeforeIsIrreflexive(items[i].0);
    }
    CollectedSomes(items);
    SameItems(names, Collected(Somes(items)), items);
  }

  lemma SameItems(names: map<string, string>, back: map<string, string>, items: seq<(string, string)>)
    requires forall item :: item in items <==> item in names.Items
    requires forall id | id in back :: (id, back[id]) in items
    requires forall item | item in items :: item.0 in back && back[item.0] == item.1
    ensures back == names
  {
    forall id | id in names ensures id in back && back[id] == names[id] {
      assert (id, names[id]) in names.Items;
    }
    forall id | id in back ensures id in names {
      assert (id, back[id]) in names.Items;
    }
  }

  /** Formatting then parsing gives a mapping back exactly when its names are clean. */
  lemma ParseInvertsFormatIff(isDigit: string -> bool, names: map<string, string>, text: string)
    requires IsFormat(isDigit, names, text)
    ensures Parsed(text) == names <==> AllClean(names)
  {
    ParsedIsClean(text);
    if AllClean(names) {
      var items :| Lists(isDigit, names, items) && text == Join(FormatItems(items));
      FormatThenParse(isDigit, names, items);
    }
  }

  /** So one round of formatting settles any text: parse, format, parse is parse. */
  lemma ParseFormatParse(isDigit: string -> bool, text: string, formatted: string)
    requires IsFormat(isDigit, Parsed(text), formatted)
    ensures Parsed(formatted) == Parsed(text)
  {
    ParsedIsClean(text);
    ParseInvertsFormatIff(isDigit, Parsed(text), formatted);
  }

  /** A mapping has only one format. */
  lemma FormatIsUnique(isDigit: string -> bool, names: map<string, string>, a: string, b: string)
    requires IsFormat(isDigit, names, a) && IsFormat(isDigit, names, b)
    ensures a == b
  {
    var xs :| Lists(isDigit, names, xs) && a == Join(FormatItems(xs));
    var ys :| Lists(isDigit, names, ys) && b == Join(FormatItems(ys));
    SameListing(isDigit, xs, ys);
  }

  lemma {:induction false} SameListing(isDigit: string -> bool, xs: seq<(string, string)>, ys: seq<(string, string)>)
    requires forall i, j | 0 <= i < j < |xs| :: Earlier(isDigit, xs[i], xs[j])
    requires forall i, j | 0 <= i < j < |ys| :: Earlier(isDigit, ys[i], ys[j])
    requires |xs| == |ys| && forall item :: item in xs <==> item in ys
    ensures xs == ys
  {
    if xs != [] {
      assert xs[0] in xs && xs[0] in ys;
      FirstIsFirst(isDigit, xs, ys);
      forall item ensures item in xs[1..] <==> item in ys[1..] {
        TailDropsHead(isDigit, xs, item);
        TailDropsHead(isDigit, ys, item);
      }
      SameListing(isDigit, xs[1..], ys[1..]);
      assert xs == [xs[0]] + xs[1..] && ys == [ys[0]] + ys[1..];
    }
  }

  lemma TailDropsHead(isDigit: string -> bool, xs: seq<(string, string)>, item: (string, string))
    requires xs != [] && forall i, j | 0 <= i < j < |xs| :: Earlier(isDigit, xs[i], xs[j])
    ensures item in xs[1..] <==> item in xs && item != xs[0]
  {
    BeforeIsIrreflexive(xs[0].0);
    if item in xs && item != xs[0] {
      var i :| 0 <= i < |xs| && xs[i] == item;
      assert xs[1..][i - 1] == item;
    }
  }

  lemma FirstIsFirst(isDigit: string -> bool, xs: seq<(string, string)>, ys: seq<(string, string)>)
    requires xs != [] && ys != [] && (forall item :: item in xs <==> item in ys)
    requires forall i, j | 0 <= i < j < |xs| :: Earlier(isDigit, xs[i], xs[j])
    requires forall i, j | 0 <= i < j < |ys| :: Earlier(isDigit, ys[i], ys[j])
    ensures xs[0] == ys[0]
  {
    assert xs[0] in ys && ys[0] in xs;
    if xs[0] != ys[0] {
      var i :| 0 <= i < |ys| && ys[i] == xs[0];
      var j :| 0 <= j < |xs| && xs[j] == ys[0];
      assert Earlier(isDigit, ys[0], ys[i]) && Earlier(isDigit, xs[0], xs[j]);
      if isDigit(xs[0].0) == isDigit(ys[0].0) {
        BeforeIsTransitive(xs[0].0, ys[0].0, xs[0].0);
        BeforeIsIrreflexive(xs[0].0);
      }
    }
  }
}
