/** Buildings, their field rules, and the batch importer. */
module Import {
  import opened Wire
  import opened Text

  datatype Building = Building(campus: string, groupCode: string, groupName: string, name: string)

  type Buildings = map<string, Building>

  predicate ValidCode(s: string) {
    1 <= |s| <= 16 && forall c :: c in s ==> 'a' <= c <= 'z' || '0' <= c <= '9' || c == '_'
  }

  predicate ValidName(s: string) { 1 <= |s| <= 64 }

  predicate ValidGroup(groupCode: string, groupName: string, name: string) {
    ValidCode(groupCode) && ValidName(groupName) && ValidName(name)
  }

  // ----- Parsing -------------------------------------------------------------------------

  datatype Problem = NoBatchGroup | FieldCount(n: nat) | InvalidField

  datatype Line = Line(number: nat, code: string, name: string, groupCode: string, groupName: string, problem: Option<Problem>)

  predicate IsContent(raw: string) { TrimSpace(raw) != "" && TrimSpace(raw)[0] != '#' }

  function TrimAll(ss: seq<string>): (r: seq<string>)
    ensures |r| == |ss|
  {
    seq(|ss|, i requires 0 <= i < |ss| => TrimSpace(ss[i]))
  }

  function ParseLine(number: nat, raw: string, groupCode: string, groupName: string): Line {
    var f := TrimAll(Fields(TrimSpace(raw), {',', '\t'}));
    if |f| == 2 then
      Line(number, f[0], f[1], groupCode, groupName, if groupCode == "" || groupName == "" then Some(NoBatchGroup) else None)
    else if |f| == 4 then Line(number, f[0], f[1], f[2], f[3], None)
    else Line(number, "", "", "", "", Some(FieldCount(|f|)))
  }

  // ----- Which field is which ------------------------------------------------------------

  /** A value that survives being written into a line: it needs no trimming and holds no separator. */
  predicate CleanField(s: string) { s != "" && Bare(s) && Plain(s, {',', '\t'}) }

  lemma CleanStays(s: string)
    requires CleanField(s)
    ensures TrimSpace(s) == s
  {
    OuterSpaceGoes("", s, "");
    assert "" + s + "" == s;
  }

  lemma EndsBare(a: string, mid: string, b: string)
    requires a != "" && b != "" && Bare(a) && Bare(b)
    ensures TrimSpace(a + mid + b) == a + mid + b
  {
    var s := a + mid + b;
    assert s[0] == a[0] && s[|s| - 1] == b[|b| - 1];
    OuterSpaceGoes("", s, "");
    assert "" + s + "" == s;
  }

  /** A line of two fields names code and building; its group is the batch's. */
  lemma TwoFields(number: nat, code: string, name: string, groupCode: string, groupName: string)
    requires CleanField(code) && CleanField(name) && groupCode != "" && groupName != ""
    ensures ParseLine(number, code + "," + name, groupCode, groupName) == Line(number, code, name, groupCode, groupName, None)
  {
    EndsBare(code, ",", name);
    FieldsCons(code, ',', name, {',', '\t'});
    FieldsOne(name, {',', '\t'});
    CleanStays(code);
    CleanStays(name);
    assert TrimAll([code, name]) == [code, name];
  }

  /** A line of four fields brings its own group. */
  lemma FourFields(number: nat, code: string, name: string, group: string, groupName: string, batchCode: string, batchName: string)
    requires CleanField(code) && CleanField(name) && CleanField(group) && CleanField(groupName)
    ensures ParseLine(number, code + "," + (name + "," + (group + "," + groupName)), batchCode, batchName)
            == Line(number, code, name, group, groupName, None)
  {
    var seps := {',', '\t'};
    var tail := group + "," + groupName;
    EndsBare(code, "," + (name + "," + (group + ",")), groupName);
    assert code + ("," + (name + "," + (group + ","))) + groupName == code + "," + (name + "," + tail);
    FieldsCons(code, ',', name + "," + tail, seps);
    FieldsCons(name, ',', tail, seps);
    FieldsCons(group, ',', groupName, seps);
    FieldsOne(groupName, seps);
    CleanStays(code);
    CleanStays(name);
    CleanStays(group);
    CleanStays(groupName);
    assert [code] + ([name] + ([group] + [groupName])) == [code, name, group, groupName];
    assert TrimAll([code, name, group, groupName]) == [code, name, group, groupName];
  }

  // ----- Parsing a text ------------------------------------------------------------------

  /** The numbers, from one, of the content lines among the first `n`: no more and no fewer. */
  function ContentNumbers(raws: seq<string>, n: nat): (r: seq<nat>)
    requires n <= |raws|
    ensures forall k :: k in r <==> 1 <= k <= n && IsContent(raws[k - 1])
    ensures forall i, j :: 0 <= i < j < |r| ==> r[i] < r[j]
  {
    if n == 0 then [] else
      var pre := ContentNumbers(raws, n - 1);
      assert forall i :: 0 <= i < |pre| ==> pre[i] in pre;
      pre + if IsContent(raws[n - 1]) then [n] else []
  }

  function ParsedUpTo(raws: seq<string>, n: nat, groupCode: string, groupName: string): seq<Line>
    requires n <= |raws|
  {
    var ns := ContentNumbers(raws, n);
    seq(|ns|, i requires 0 <= i < |ns| => assert ns[i] in ns; ParseLine(ns[i], raws[ns[i] - 1], groupCode, groupName))
  }

  lemma ParsedSnoc(raws: seq<string>, n: nat, groupCode: string, groupName: string)
    requires 0 < n <= |raws|
    ensures ParsedUpTo(raws, n, groupCode, groupName) == ParsedUpTo(raws, n - 1, groupCode, groupName)
              + if IsContent(raws[n - 1]) then [ParseLine(n, raws[n - 1], groupCode, groupName)] else []
  {
  }

  function Parse(text: string, groupCode: string, groupName: string): seq<Line> {
    var raws := Split(text, {'\n'});
    ParsedUpTo(raws, |raws|, groupCode, groupName)
  }

  method ParseBuildingImport(text: string, groupCode: string, groupName: string) returns (out: seq<Line>)
    ensures out == Parse(text, groupCode, groupName)
  {
    var raws := Split(text, {'\n'});
    out := [];
    for i := 0 to |raws|
      invariant out == ParsedUpTo(raws, i, groupCode, groupName)
    {
      ParsedSnoc(raws, i + 1, groupCode, groupName);
      var line := TrimSpace(raws[i]);
      if line == "" || line[0] == '#' {
        continue;
      }
      var fields := TrimAll(Fields(line, {',', '\t'}));
      var entry := Line(i + 1, "", "", "", "", None);
      if |fields| == 2 {
        entry := entry.(code := fields[0], name := fields[1], groupCode := groupCode, groupName := groupName);
        if entry.groupCode == "" || entry.groupName == "" {
          entry := entry.(problem := Some(NoBatchGroup));
        }
      } else if |fields| == 4 {
        entry := entry.(code := fields[0], name := fields[1], groupCode := fields[2], groupName := fields[3]);
      } else {
        entry := entry.(problem := Some(FieldCount(|fields|)));
      }
      out := out + [entry];
    }
  }

  // ----- Applying ------------------------------------------------------------------------

  /** Why a line is refused; it depends on the line alone. */
  function Refusal(l: Line): Option<Problem> {
    if l.problem != None then l.problem
    else if !ValidCode(l.code) || !ValidGroup(l.groupCode, l.groupName, l.name) then Some(InvalidField)
    else None
  }

  function Failures(lines: seq<Line>): seq<(nat, Problem)> {
    if lines == [] then []
    else Failures(lines[..|lines| - 1]) + (var l := lines[|lines| - 1]; if Refusal(l).Some? then [(l.number, Refusal(l).value)] else [])
  }

  function RowOf(campus: string, l: Line): Building { Building(campus, l.groupCode, l.groupName, l.name) }

  /** The first good line of a code decides its row; rows that are there stay. */
  function Applied(b: Buildings, campus: string, lines: seq<Line>): Buildings {
    if lines == [] then b
    else
      var pre, l := Applied(b, campus, lines[..|lines| - 1]), lines[|lines| - 1];
      if Refusal(l) == None && l.code !in pre then pre[l.code := RowOf(campus, l)] else pre
  }

  /** Codes of good lines whose row was already there. */
  function Skips(b: Buildings, campus: string, lines: seq<Line>): seq<string> {
    if lines == [] then []
    else
      var pre, l := lines[..|lines| - 1], lines[|lines| - 1];
      Skips(b, campus, pre) + if Refusal(l) == None && l.code in Applied(b, campus, pre) then [l.code] else []
  }

  predicate Good(l: Line, code: string) { Refusal(l) == None && l.code == code }

  /** A code that was not there and has no good line has no row. */
  lemma {:induction false} NoGoodNoRow(b: Buildings, campus: string, lines: seq<Line>, code: string)
    requires code !in b && forall i :: 0 <= i < |lines| ==> !Good(lines[i], code)
    ensures code !in Applied(b, campus, lines)
  {
    if lines != [] {
      var n := |lines| - 1;
      NoGoodNoRow(b, campus, lines[..n], code);
      assert !Good(lines[n], code);
    }
  }

  /** Otherwise its first good line gives the row. */
  lemma {:induction false} FirstGoodRow(b: Buildings, campus: string, lines: seq<Line>, code: string, i: nat)
    requires code !in b && i < |lines| && Good(lines[i], code) && forall j :: 0 <= j < i ==> !Good(lines[j], code)
    ensures code in Applied(b, campus, lines)
    ensures Applied(b, campus, lines)[code] == Building(campus, lines[i].groupCode, lines[i].groupName, lines[i].name)
  {
    var n := |lines| - 1;
    var pre := lines[..n];
    if i == n {
      NoGoodNoRow(b, campus, pre, code);
    } else {
      assert pre[i] == lines[i] && forall j :: 0 <= j < i ==> pre[j] == lines[j];
      FirstGoodRow(b, campus, pre, code, i);
    }
  }

  datatype Report = Report(added: nat, skipped: seq<string>, failed: seq<(nat, Problem)>)

  lemma {:induction false} Conservation(b: Buildings, campus: string, lines: seq<Line>)
    ensures |Applied(b, campus, lines)| >= |b| && b.Keys <= Applied(b, campus, lines).Keys
    ensures forall k :: k in b ==> Applied(b, campus, lines)[k] == b[k]
    ensures |Applied(b, campus, lines)| - |b| + |Skips(b, campus, lines)| + |Failures(lines)| == |lines|
  {
    if lines != [] { Conservation(b, campus, lines[..|lines| - 1]); }
  }

  /** What a second pass skips: every good line of the first, added then or skipped then. */
  function GoodCodes(lines: seq<Line>): seq<string> {
    if lines == [] then []
    else GoodCodes(lines[..|lines| - 1]) + (var l := lines[|lines| - 1]; if Refusal(l) == None then [l.code] else [])
  }

  lemma {:induction false} GoodCodesPresent(b: Buildings, campus: string, lines: seq<Line>)
    ensures forall c :: c in GoodCodes(lines) ==> c in Applied(b, campus, lines)
    ensures |GoodCodes(lines)| + |Failures(lines)| == |lines|
  {
    if lines != [] { GoodCodesPresent(b, campus, lines[..|lines| - 1]); }
  }

  lemma {:induction false} NothingToAdd(b: Buildings, campus: string, lines: seq<Line>)
    requires forall c :: c in GoodCodes(lines) ==> c in b
    ensures Applied(b, campus, lines) == b && Skips(b, campus, lines) == GoodCodes(lines)
  {
    if lines != [] { NothingToAdd(b, campus, lines[..|lines| - 1]); }
  }

  /** What the page says after an import. */
  function ReportOf(b: Buildings, campus: string, lines: seq<Line>): (r: Report)
    ensures r.added + |r.skipped| + |r.failed| == |lines|
  {
    Conservation(b, campus, lines);
    Report(|Applied(b, campus, lines)| - |b|, Skips(b, campus, lines), Failures(lines))
  }

  /** Importing the same lines again leaves the table alone, adds none, skips whatever was added or
      skipped, and fails the same lines; so does importing them for another campus. */
  lemma ImportAgain(b: Buildings, campus: string, other: string, lines: seq<Line>)
    ensures var once, first := Applied(b, campus, lines), ReportOf(b, campus, lines);
            && Applied(once, other, lines) == once
            && ReportOf(once, other, lines) == Report(0, GoodCodes(lines), first.failed)
            && |GoodCodes(lines)| == first.added + |first.skipped|
  {
    GoodCodesPresent(b, campus, lines);
    NothingToAdd(Applied(b, campus, lines), other, lines);
    Conservation(b, campus, lines);
  }
}
