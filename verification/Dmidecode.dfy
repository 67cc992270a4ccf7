/** The single-pass parser for `dmidecode -t memory`. Text is modelled over an
    alphabet whose only white space is blank and tab and whose only line
    separator is the newline. */
module Dmidecode {

  import opened Wrappers

  type Record = map<string, string>

  // ---- Strings ---------------------------------------------------------

  predicate IsSpace(c: char) { c == ' ' || c == '\t' }

  predicate AllSpace(s: string) { forall i | 0 <= i < |s| :: IsSpace(s[i]) }

  function LStrip(s: string): string {
    if s != "" && IsSpace(s[0]) then LStrip(s[1..]) else s
  }

  function RStrip(s: string): string {
    if s != "" && IsSpace(s[|s| - 1]) then RStrip(s[..|s| - 1]) else s
  }

  function Strip(s: string): string { RStrip(LStrip(s)) }

  /** The first index of `c`, or the length of `s`. */
  function Find(s: string, c: char): (i: nat)
    ensures i <= |s| && (i < |s| ==> s[i] == c) && c !in s[..i]
  {
    if s == "" || s[0] == c then 0 else 1 + Find(s[1..], c)
  }

  predicate Contains(s: string, sub: string) {
    exists i | 0 <= i <= |s| :: sub <= s[i..]
  }

  lemma SplitAt<T>(s: seq<T>, k: nat)
    requires k <= |s|
    ensures s == s[..k] + s[k..]
  {
  }

  lemma TailTail<T>(s: seq<T>, k: nat)
    requires 1 <= k <= |s|
    ensures s[1..][k - 1..] == s[k..]
  {
  }

  lemma AllSpaceFrom(s: string, k: nat)
    requires 1 <= k <= |s| && IsSpace(s[0]) && AllSpace(s[1..][..k - 1])
    ensures AllSpace(s[..k])
  {
    forall i | 0 <= i < k ensures IsSpace(s[..k][i]) {
      if i > 0 {
        assert s[..k][i] == s[1..][..k - 1][i - 1];
      }
    }
  }

  lemma {:induction false} LStripSplits(s: string)
    ensures |LStrip(s)| <= |s| && LStrip(s) == s[|s| - |LStrip(s)|..]
    ensures AllSpace(s[..|s| - |LStrip(s)|])
    ensures LStrip(s) != "" ==> !IsSpace(LStrip(s)[0])
  {
    if s != "" && IsSpace(s[0]) {
      var k := |s| - |LStrip(s[1..])|;
      LStripSplits(s[1..]);
      TailTail(s, k);
      AllSpaceFrom(s, k);
    }
  }

  lemma {:induction false} LStripPadding(pad: string, s: string)
    requires AllSpace(pad)
    ensures LStrip(pad + s) == LStrip(s)
  {
    if pad == "" {
      assert pad + s == s;
    } else {
      LStripPadding(pad[1..], s);
      assert (pad + s)[1..] == pad[1..] + s;
    }
  }

  lemma {:induction false} FindIn(prefix: string, c: char, rest: string)
    requires c !in prefix
    ensures Find(prefix + [c] + rest, c) == |prefix|
  {
    if prefix != "" {
      FindIn(prefix[1..], c, rest);
      assert (prefix + [c] + rest)[1..] == prefix[1..] + [c] + rest;
    }
  }

  // ---- Entry lines -----------------------------------------------------

  predicate IsLetter(c: char) { 'A' <= c <= 'Z' || 'a' <= c <= 'z' }

  predicate IsKeyChar(c: char) {
    IsLetter(c) || '0' <= c <= '9' || c == ' ' || c == '/' || c == '-'
  }

  predicate IsKey(s: string) {
    s != "" && IsLetter(s[0]) && forall i | 0 <= i < |s| :: IsKeyChar(s[i])
  }

  /** One way the entry expression can match: padding, key group, colon, gap
      and value group. */
  predicate Matches(line: string, pad: string, key: string, gap: string, value: string) {
    line == pad + key + ":" + gap + value && AllSpace(pad) && IsKey(key) && AllSpace(gap)
  }

  function Entry(line: string): Option<(string, string)> {
    var s := LStrip(line);
    var i := Find(s, ':');
    if i < |s| && IsKey(s[..i]) then Some((Strip(s[..i]), Strip(s[i + 1..]))) else None
  }

  lemma EntryOfMatch(line: string, pad: string, key: string, gap: string, value: string)
    requires Matches(line, pad, key, gap, value)
    ensures Entry(line) == Some((Strip(key), Strip(value)))
  {
    var s := key + ":" + (gap + value);
    assert line == pad + s;
    LStripPadding(pad, s);
    assert LStrip(s) == s;
    assert ':' !in key;
    FindIn(key, ':', gap + value);
    assert s[..|key|] == key && s[|key| + 1..] == gap + value;
    LStripPadding(gap, value);
  }

  lemma CutAt<T>(s: seq<T>, i: nat)
    requires i < |s|
    ensures s == s[..i] + [s[i]] + s[i + 1..]
  {
  }

  lemma Regroup<T>(a: seq<T>, b: seq<T>, c: seq<T>, d: seq<T>)
    ensures a + (b + c + d) == a + b + c + [] + d
  {
  }

  lemma MatchOfEntry(line: string)
    requires Entry(line).Some?
    ensures var s := LStrip(line);
            var i := Find(s, ':');
            && i < |s| && |s| <= |line|
            && Matches(line, line[..|line| - |s|], s[..i], "", s[i + 1..])
  {
    var s := LStrip(line);
    var i := Find(s, ':');
    LStripSplits(line);
    CutAt(s, i);
    var pad, key, value := line[..|line| - |s|], s[..i], s[i + 1..];
    SplitAt(line, |line| - |s|);
    Regroup(pad, key, ":", value);
  }

  /** The line matches the entry expression in some way that strips to (k, v). */
  ghost predicate MatchesAs(line: string, k: string, v: string) {
    exists pad, key, gap, value :: Matches(line, pad, key, gap, value) && k == Strip(key) && v == Strip(value)
  }

  /** The entry function finds a key and value exactly when the expression
      matches, and every possible match gives the same stripped pair. */
  lemma EntryIffMatch(line: string, k: string, v: string)
    ensures Entry(line) == Some((k, v)) <==> MatchesAs(line, k, v)
  {
    if Entry(line) == Some((k, v)) {
      MatchOfEntry(line);
      var s := LStrip(line);
      var i := Find(s, ':');
      assert k == Strip(s[..i]) && v == Strip(s[i + 1..]);
    }
    if MatchesAs(line, k, v) {
      var pad, key, gap, value :|
        Matches(line, pad, key, gap, value) && k == Strip(key) && v == Strip(value);
      EntryOfMatch(line, pad, key, gap, value);
    }
  }

  // ---- The specification: split, map, filter ---------------------------

  predicate IsHeader(line: string) { "Memory Device" <= line }

  /** Lines cut at the headers: what comes before the first header, and the
      run of lines after each header. */
  datatype Sections<T> = Sections(preamble: seq<T>, blocks: seq<seq<T>>)

  function Split<T>(isHeader: T -> bool, lines: seq<T>): Sections<T> {
    if lines == [] then Sections([], [])
    else
      var Sections(run, blocks) := Split(isHeader, lines[1..]);
      if isHeader(lines[0]) then Sections([], [run] + blocks) else Sections([lines[0]] + run, blocks)
  }

  function Blocks(lines: seq<string>): seq<seq<string>> {
    Split(IsHeader, lines).blocks
  }

  /** A block's entries, a later line overriding an earlier one. */
  function BlockRecord(block: seq<string>): Record {
    if block == [] then map[]
    else
      var earlier := BlockRecord(block[..|block| - 1]);
      match Entry(block[|block| - 1])
      case Some((k, v)) => earlier[k := v]
      case None => earlier
  }

  predicate Populated(r: Record) {
    "Size" in r && r["Size"] != "" && !Contains(r["Size"], "No Module")
  }

  function Records(blocks: seq<seq<string>>): (rs: seq<Record>) {
    seq(|blocks|, i requires 0 <= i < |blocks| => BlockRecord(blocks[i]))
  }

  function Filter<T>(keep: T -> bool, xs: seq<T>): seq<T> {
    if xs == [] then [] else (if keep(xs[0]) then [xs[0]] else []) + Filter(keep, xs[1..])
  }

  function Modules(lines: seq<string>): seq<Record> {
    Filter(Populated, Records(Blocks(lines)))
  }

  /** The lines of a text; a final newline ends the last line. */
  function SplitLines(text: string): seq<string> {
    if text == "" then []
    else
      var rest := SplitLines(text[1..]);
      if text[0] == '\n' then [""] + rest else Prepend(text[0], rest)
  }

  /** Puts a character at the front of the first line. */
  function Prepend(c: char, lines: seq<string>): seq<string> {
    if lines == [] then [[c]] else [[c] + lines[0]] + lines[1..]
  }

  /** The line defines `k`. */
  predicate Defines(line: string, k: string) {
    Entry(line).Some? && Entry(line).value.0 == k
  }

  predicate LastEntry(block: seq<string>, k: string, i: int) {
    0 <= i < |block| && Defines(block[i], k) && forall j | i < j < |block| :: !Defines(block[j], k)
  }

  /** The block's last definition of `k`, if any. */
  function LastIndex(block: seq<string>, k: string): (i: int)
    ensures -1 <= i < |block|
    ensures i >= 0 ==> LastEntry(block, k, i)
    ensures i < 0 ==> forall j | 0 <= j < |block| :: !Defines(block[j], k)
  {
    if block == [] then -1
    else if Defines(block[|block| - 1], k) then |block| - 1
    else LastIndex(block[..|block| - 1], k)
  }

  /** A key is present exactly when some line defines it, with the value of the
      last such line. */
  lemma {:induction false} BlockRecordLastWins(block: seq<string>, k: string)
    ensures var i := LastIndex(block, k);
            if i < 0 then k !in BlockRecord(block)
            else k in BlockRecord(block) && BlockRecord(block)[k] == Entry(block[i]).value.1
  {
    if block != [] {
      BlockRecordLastWins(block[..|block| - 1], k);
    }
  }

  // ---- Homomorphism ----------------------------------------------------

  lemma {:induction false} SplitAppend<T>(isHeader: T -> bool, a: seq<T>, b: seq<T>)
    requires b == [] || isHeader(b[0])
    ensures Split(isHeader, a + b).preamble == Split(isHeader, a).preamble
    ensures Split(isHeader, a + b).blocks == Split(isHeader, a).blocks + Split(isHeader, b).blocks
  {
    if a == [] {
      assert a + b == b;
    } else {
      assert (a + b)[1..] == a[1..] + b;
      SplitAppend(isHeader, a[1..], b);
    }
  }

  lemma {:induction false} FilterAppend<T>(keep: T -> bool, a: seq<T>, b: seq<T>)
    ensures Filter(keep, a + b) == Filter(keep, a) + Filter(keep, b)
  {
    if a == [] {
      assert a + b == b;
    } else {
      var head := if keep(a[0]) then [a[0]] else [];
      FilterAppend(keep, a[1..], b);
      assert (a + b)[1..] == a[1..] + b;
      assert head + (Filter(keep, a[1..]) + Filter(keep, b)) == head + Filter(keep, a[1..]) + Filter(keep, b);
    }
  }

  lemma RecordsAppend(a: seq<seq<string>>, b: seq<seq<string>>)
    ensures Records(a + b) == Records(a) + Records(b)
  {
  }

  lemma PrependAppend(c: char, a: seq<string>, b: seq<string>)
    requires a != []
    ensures Prepend(c, a + b) == Prepend(c, a) + b
  {
  }

  lemma {:induction false} SplitLinesAppend(t1: string, t2: string)
    requires t1 == "" || t1[|t1| - 1] == '\n'
    ensures SplitLines(t1 + t2) == SplitLines(t1) + SplitLines(t2)
    ensures t1 != "" ==> SplitLines(t1) != []
  {
    if t1 == "" {
      assert t1 + t2 == t2;
    } else {
      assert (t1 + t2)[1..] == t1[1..] + t2;
      SplitLinesAppend(t1[1..], t2);
      if t1[0] != '\n' {
        PrependAppend(t1[0], SplitLines(t1[1..]), SplitLines(t2));
      }
    }
  }

  /** Two reports parse independently when the second starts at a header. */
  lemma ParseAppend(t1: string, t2: string)
    requires t1 == "" || t1[|t1| - 1] == '\n'
    requires SplitLines(t2) == [] || IsHeader(SplitLines(t2)[0])
    ensures Modules(SplitLines(t1 + t2)) == Modules(SplitLines(t1)) + Modules(SplitLines(t2))
  {
    SplitLinesAppend(t1, t2);
    var l1, l2 := SplitLines(t1), SplitLines(t2);
    SplitAppend(IsHeader, l1, l2);
    RecordsAppend(Blocks(l1), Blocks(l2));
    FilterAppend(Populated, Records(Blocks(l1)), Records(Blocks(l2)));
  }

  // ---- The one-pass parser ---------------------------------------------

  function ExtendLast<T>(blocks: seq<seq<T>>, line: T): seq<seq<T>> {
    if blocks == [] then [] else blocks[..|blocks| - 1] + [blocks[|blocks| - 1] + [line]]
  }

  /** A line that is not a header extends the last block, if there is one. */
  lemma {:induction false} SplitGrow<T>(isHeader: T -> bool, lines: seq<T>, line: T)
    requires !isHeader(line)
    ensures Split(isHeader, lines + [line]).blocks == ExtendLast(Split(isHeader, lines).blocks, line)
    ensures Split(isHeader, lines).blocks == [] ==>
              Split(isHeader, lines + [line]).preamble == Split(isHeader, lines).preamble + [line]
    ensures Split(isHeader, lines).blocks != [] ==>
              Split(isHeader, lines + [line]).preamble == Split(isHeader, lines).preamble
  {
    if lines != [] {
      assert (lines + [line])[1..] == lines[1..] + [line];
      SplitGrow(isHeader, lines[1..], line);
    }
  }

  /** What the two loop variables hold after reading `lines`. */
  predicate Reads(lines: seq<string>, modules: seq<Record>, current: Option<Record>) {
    var bs := Blocks(lines);
    if bs == [] then current.None? && modules == []
    else
      && current == Some(BlockRecord(bs[|bs| - 1]))
      && modules == Filter(Populated, Records(bs[..|bs| - 1]))
  }

  /** What closing the current block appends to the modules. */
  function Closed(current: Option<Record>): seq<Record> {
    if current.Some? && Populated(current.value) then [current.value] else []
  }

  lemma ReadsAll(lines: seq<string>, modules: seq<Record>, current: Option<Record>)
    requires Reads(lines, modules, current)
    ensures Modules(lines) == modules + Closed(current)
  {
    var bs := Blocks(lines);
    if bs != [] {
      var init, r := bs[..|bs| - 1], BlockRecord(bs[|bs| - 1]);
      assert Records(bs) == Records(init) + [r];
      FilterAppend(Populated, Records(init), [r]);
    }
  }

  lemma ReadsHeader(lines: seq<string>, raw: string, modules: seq<Record>, current: Option<Record>)
    requires Reads(lines, modules, current) && IsHeader(raw)
    ensures Reads(lines + [raw], modules + Closed(current), Some(map[]))
  {
    ReadsAll(lines, modules, current);
    SplitAppend(IsHeader, lines, [raw]);
    var bs := Blocks(lines + [raw]);
    assert bs == Blocks(lines) + [[]];
    assert bs[..|bs| - 1] == Blocks(lines);
  }

  lemma ReadsLine(lines: seq<string>, raw: string, modules: seq<Record>, current: Option<Record>)
    requires Reads(lines, modules, current) && !IsHeader(raw)
    ensures var next := match (current, Entry(raw))
              case (Some(r), Some((k, v))) => Some(r[k := v])
              case _ => current;
            Reads(lines + [raw], modules, next)
  {
    SplitGrow(IsHeader, lines, raw);
    var bs := Blocks(lines);
    if bs != [] {
      var last := bs[|bs| - 1];
      assert (last + [raw])[..|last|] == last;
      assert ExtendLast(bs, raw)[..|bs| - 1] == bs[..|bs| - 1];
    }
  }

  /** The records, in order, whose size is there, not empty, and says "No Module"
      nowhere. */
  function Occupied(records: seq<Record>): seq<Record> {
    if records == [] then []
    else
      var init, last := Occupied(records[..|records| - 1]), records[|records| - 1];
      if "Size" in last && last["Size"] != "" && forall i | 0 <= i <= |last["Size"]| :: !("No Module" <= last["Size"][i..])
      then init + [last]
      else init
  }

  lemma {:induction false} FilterIsOccupied(records: seq<Record>)
    ensures Filter(Populated, records) == Occupied(records)
  {
    if records != [] {
      var init, last := records[..|records| - 1], records[|records| - 1];
      FilterIsOccupied(init);
      FilterAppend(Populated, init, [last]);
      assert records == init + [last];
    }
  }

  method ParseDmidecodeMemory(text: string) returns (modules: seq<Record>)
    ensures modules == Modules(SplitLines(text))
    ensures modules == Occupied(Records(Blocks(SplitLines(text))))
  {
    modules := [];
    var current: Option<Record> := None;
    var lines := SplitLines(text);
    for i := 0 to |lines|
      invariant Reads(lines[..i], modules, current)
    {
      var raw := lines[i];
      assert lines[..i + 1] == lines[..i] + [raw];
      if IsHeader(raw) {
        ReadsHeader(lines[..i], raw, modules, current);
        if current.Some? && Populated(current.value) {
          modules := modules + [current.value];
        }
        current := Some(map[]);
        continue;
      }
      ReadsLine(lines[..i], raw, modules, current);
      if current.None? {
        continue;
      }
      var entry := Entry(raw);
      if entry.Some? {
        current := Some(current.value[entry.value.0 := entry.value.1]);
      }
    }
    assert lines[..|lines|] == lines;
    ReadsAll(lines, modules, current);
    FilterIsOccupied(Records(Blocks(lines)));
    if current.Some? && Populated(current.value) {
      modules := modules + [current.value];
    }
  }

  // ---- Round trip ------------------------------------------------------

  type Entries = seq<(string, string)>

  /** A memory device of a report: the rest of its header line, and its entries. */
  datatype MemoryDevice = MemoryDevice(title: string, entries: Entries)

  predicate WellFormedEntry(e: (string, string)) {
    IsKey(e.0) && Strip(e.0) == e.0 && Strip(e.1) == e.1 && '\n' !in e.1
  }

  function RecordOf(es: Entries): Record {
    if es == [] then map[]
    else RecordOf(es[..|es| - 1])[es[|es| - 1].0 := es[|es| - 1].1]
  }

  predicate WellFormedDevice(d: MemoryDevice) {
    '\n' !in d.title && forall e | e in d.entries :: WellFormedEntry(e)
  }

  function RecordsOf(devices: seq<MemoryDevice>): seq<Record> {
    if devices == [] then [] else [RecordOf(devices[0].entries)] + RecordsOf(devices[1..])
  }

  function EntryLines(es: Entries): seq<string> {
    seq(|es|, i requires 0 <= i < |es| => "\t" + es[i].0 + ": " + es[i].1)
  }

  function RenderLines(devices: seq<MemoryDevice>): seq<string> {
    if devices == [] then []
    else ["Memory Device" + devices[0].title] + EntryLines(devices[0].entries) + RenderLines(devices[1..])
  }

  function Unlines(lines: seq<string>): string {
    if lines == [] then "" else lines[0] + "\n" + Unlines(lines[1..])
  }

  lemma {:induction false} SplitFirstLine(line: string, rest: string)
    requires '\n' !in line
    ensures SplitLines(line + "\n" + rest) == [line] + SplitLines(rest)
  {
    if line == "" {
      assert line + "\n" + rest == "\n" + rest;
    } else {
      assert (line + "\n" + rest)[1..] == line[1..] + "\n" + rest;
      SplitFirstLine(line[1..], rest);
      assert [line[0]] + line[1..] == line;
    }
  }

  lemma {:induction false} SplitUnlines(lines: seq<string>)
    requires forall l | l in lines :: '\n' !in l
    ensures SplitLines(Unlines(lines)) == lines
  {
    if lines != [] {
      SplitFirstLine(lines[0], Unlines(lines[1..]));
      SplitUnlines(lines[1..]);
    }
  }

  lemma EntryLineParses(e: (string, string))
    requires WellFormedEntry(e)
    ensures var line := "\t" + e.0 + ": " + e.1;
            Entry(line) == Some(e) && !IsHeader(line) && '\n' !in line
  {
    var line := "\t" + e.0 + ": " + e.1;
    assert line == "\t" + e.0 + ":" + " " + e.1;
    assert Matches(line, "\t", e.0, " ", e.1);
    EntryOfMatch(line, "\t", e.0, " ", e.1);
    assert line[0] == '\t';
  }

  lemma {:induction false} BlockRecordOfEntryLines(es: Entries)
    requires forall e | e in es :: WellFormedEntry(e)
    ensures BlockRecord(EntryLines(es)) == RecordOf(es)
  {
    if es != [] {
      var n := |es| - 1;
      BlockRecordOfEntryLines(es[..n]);
      assert EntryLines(es)[..n] == EntryLines(es[..n]);
      EntryLineParses(es[n]);
    }
  }

  lemma {:induction false} RenderStartsAtHeader(devices: seq<MemoryDevice>)
    requires forall d | d in devices :: WellFormedDevice(d)
    ensures RenderLines(devices) == [] || IsHeader(RenderLines(devices)[0])
    ensures forall l | l in RenderLines(devices) :: '\n' !in l
  {
    if devices != [] {
      RenderStartsAtHeader(devices[1..]);
      assert devices[0] in devices;
      forall e | e in devices[0].entries { EntryLineParses(e); }
    }
  }

  lemma {:induction false} NoHeaders(lines: seq<string>)
    requires forall l | l in lines :: !IsHeader(l)
    ensures Split(IsHeader, lines) == Sections(lines, [])
  {
    if lines != [] {
      NoHeaders(lines[1..]);
    }
  }

  lemma BlocksOfDevice(d: MemoryDevice)
    requires WellFormedDevice(d)
    ensures Blocks(["Memory Device" + d.title] + EntryLines(d.entries)) == [EntryLines(d.entries)]
  {
    var body := EntryLines(d.entries);
    forall e | e in d.entries { EntryLineParses(e); }
    assert (["Memory Device" + d.title] + body)[1..] == body;
    NoHeaders(body);
  }

  lemma {:induction false} BlocksOfRender(devices: seq<MemoryDevice>)
    requires forall d | d in devices :: WellFormedDevice(d)
    ensures Records(Blocks(RenderLines(devices))) == RecordsOf(devices)
  {
    if devices != [] {
      var d, rest := devices[0], RenderLines(devices[1..]);
      var body := EntryLines(d.entries);
      RenderStartsAtHeader(devices[1..]);
      BlocksOfRender(devices[1..]);
      BlocksOfDevice(d);
      SplitAppend(IsHeader, ["Memory Device" + d.title] + body, rest);
      BlockRecordOfEntryLines(d.entries);
      RecordsAppend([body], Blocks(rest));
      assert Records([body]) == [BlockRecord(body)];
    }
  }

  /** Parsing a report of memory devices, whatever precedes the first one and whatever
      else their header lines say, gives the records of the occupied ones, in order. */
  lemma RoundTrip(preamble: seq<string>, devices: seq<MemoryDevice>)
    requires forall l | l in preamble :: '\n' !in l && !("Memory Device" <= l)
    requires forall d | d in devices :: WellFormedDevice(d)
    ensures Modules(SplitLines(Unlines(preamble + RenderLines(devices)))) == Occupied(RecordsOf(devices))
  {
    RenderStartsAtHeader(devices);
    SplitUnlines(preamble + RenderLines(devices));
    NoHeaders(preamble);
    SplitAppend(IsHeader, preamble, RenderLines(devices));
    assert Blocks(preamble + RenderLines(devices)) == Blocks(RenderLines(devices));
    BlocksOfRender(devices);
    FilterIsOccupied(RecordsOf(devices));
  }

  lemma OneDevice(d: MemoryDevice)
    ensures RenderLines([d]) == ["Memory Device" + d.title] + EntryLines(d.entries)
    ensures RecordsOf([d]) == [RecordOf(d.entries)]
  {
    assert [d][1..] == [];
  }

  lemma SizeEntry(size: string)
    ensures RecordOf([("Size", size)]) == map["Size" := size]
    ensures EntryLines([("Size", size)]) == ["\tSize: " + size]
  {
    var es: Entries := [("Size", size)];
    assert es[..0] == [] && RecordOf(es) == RecordOf(es[..0])["Size" := size];
    assert "\t" + "Size" + ": " == "\tSize: ";
  }

  /** A report of one device that only states its size. */
  lemma OneSize(size: string)
    requires Strip(size) == size && '\n' !in size
    ensures Modules(SplitLines(Unlines(["Memory Device", "\tSize: " + size]))) == Occupied([map["Size" := size]])
  {
    var d := MemoryDevice("", [("Size", size)]);
    SizeIsKey();
    OneDevice(d);
    SizeEntry(size);
    RoundTrip([], [d]);
    assert "Memory Device" + "" == "Memory Device";
    assert [] + RenderLines([d]) == ["Memory Device", "\tSize: " + size];
  }

  lemma SizeIsKey()
    ensures IsKey("Size") && Strip("Size") == "Size"
  {
  }

  /** An empty slot gives no module. */
  lemma EmptySlot()
    ensures Modules(SplitLines(Unlines(["Memory Device", "\tSize: " + "No Module Installed"]))) == []
  {
    var size := "No Module Installed";
    assert size[0] == 'N' && size[|size| - 1] == 'd';
    assert LStrip(size) == size && RStrip(size) == size;
    OneSize(size);
    NotOccupied(size);
  }

  lemma NotOccupied(size: string)
    requires "No Module" <= size
    ensures Occupied([map["Size" := size]]) == []
  {
    var rs: seq<Record> := [map["Size" := size]];
    assert rs[..0] == [] && size[0..] == size;
  }
}
