/**
 How the kubelet rewrites the lines of resolv.conf (pkg/kubelet/kubelet.go).
 */
module ResolvConf {
  import opened Sequences

  function Anchor(): string { "# Kuberboat DNS name server." }

  const NAMESERVER := "nameserver"

  predicate IsNameServer(line: string) {
    NAMESERVER <= line
  }

  /** After every anchor the next line becomes the entry; an anchor at the end gets one. */
  function Replace(lines: seq<string>, entry: string): seq<string>
    decreases |lines|
  {
    if lines == [] then []
    else if lines[0] == Anchor() then [Anchor(), entry] + Replace(if |lines| > 1 then lines[2..] else [], entry)
    else [lines[0]] + Replace(lines[1..], entry)
  }

  /** The index of the first name server line; 0 when there is none. */
  function FirstNameServer(lines: seq<string>): (k: nat)
    ensures k <= |lines|
  {
    if forall line | line in lines :: !IsNameServer(line) then 0 else FirstFrom(lines, 0)
  }

  function FirstFrom(lines: seq<string>, i: nat): (k: nat)
    requires i <= |lines|
    ensures i <= k <= |lines|
    ensures forall j | i <= j < k :: !IsNameServer(lines[j])
    ensures k < |lines| ==> IsNameServer(lines[k])
    decreases |lines| - i
  {
    if i == |lines| || IsNameServer(lines[i]) then i else FirstFrom(lines, i + 1)
  }

  function Update(lines: seq<string>, entry: string): seq<string> {
    if Anchor() in lines then Replace(lines, entry)
    else if lines == [] then []
    else
      var k := FirstNameServer(lines);
      lines[..k] + [Anchor(), entry] + lines[k..]
  }

  // ---- last writer wins ----

  lemma {:induction false} ReplaceTwice(lines: seq<string>, a: string, b: string)
    ensures Replace(Replace(lines, a), b) == Replace(lines, b)
    decreases |lines|
  {
    hide Anchor;
    if lines == [] {
    } else if lines[0] == Anchor() {
      var rest := if |lines| > 1 then lines[2..] else [];
      ReplaceTwice(rest, a, b);
      assert ([Anchor(), a] + Replace(rest, a))[2..] == Replace(rest, a);
    } else {
      ReplaceTwice(lines[1..], a, b);
      assert ([lines[0]] + Replace(lines[1..], a))[1..] == Replace(lines[1..], a);
    }
  }

  lemma {:induction false} ReplaceNone(lines: seq<string>, entry: string)
    requires Anchor() !in lines
    ensures Replace(lines, entry) == lines
  {
    hide Anchor;
    if lines != [] {
      assert lines[0] in lines && forall x | x in lines[1..] :: x in lines;
      ReplaceNone(lines[1..], entry);
    }
  }

  lemma {:induction false} ReplaceAfter(before: seq<string>, after: seq<string>, entry: string)
    requires Anchor() !in before
    ensures Replace(before + after, entry) == before + Replace(after, entry)
  {
    hide Anchor;
    if before == [] {
      assert [] + after == after;
    } else {
      assert before[0] in before && forall x | x in before[1..] :: x in before;
      assert (before + after)[1..] == before[1..] + after;
      ReplaceAfter(before[1..], after, entry);
    }
  }

  lemma {:induction false} ReplaceKeepsAnchor(lines: seq<string>, entry: string)
    requires Anchor() in lines
    ensures Anchor() in Replace(lines, entry)
    decreases |lines|
  {
    hide Anchor;
    if lines[0] == Anchor() {
      assert ([Anchor(), entry] + Replace(if |lines| > 1 then lines[2..] else [], entry))[0] == Anchor();
    } else {
      assert Anchor() in lines[1..];
      ReplaceKeepsAnchor(lines[1..], entry);
    }
  }

  lemma ReplaceInserted(before: seq<string>, after: seq<string>, a: string, b: string)
    requires Anchor() !in before && Anchor() !in after
    ensures Replace(before + ([Anchor(), a] + after), b) == before + ([Anchor(), b] + after)
  {
    hide Anchor;
    ReplaceAfter(before, [Anchor(), a] + after, b);
    assert ([Anchor(), a] + after)[2..] == after;
    ReplaceNone(after, b);
  }

  /** The last writer wins: a second update leaves no trace of the first, whatever the file held. */
  lemma LastWriterWins(lines: seq<string>, a: string, b: string)
    ensures Update(Update(lines, a), b) == Update(lines, b)
  {
    hide Anchor;
    if Anchor() in lines {
      ReplaceTwice(lines, a, b);
      ReplaceKeepsAnchor(lines, a);
    } else if lines != [] {
      var k := FirstNameServer(lines);
      var before, after := lines[..k], lines[k..];
      assert before + [Anchor(), a] + after == before + ([Anchor(), a] + after);
      assert before + [Anchor(), b] + after == before + ([Anchor(), b] + after);
      assert (before + ([Anchor(), a] + after))[k] == Anchor();
      ReplaceInserted(before, after, a, b);
    }
  }

  // ---- what survives ----

  lemma FirstNameServerIs(lines: seq<string>)
    ensures forall j | 0 <= j < FirstNameServer(lines) :: !IsNameServer(lines[j])
    ensures var k := FirstNameServer(lines);
      if forall line | line in lines :: !IsNameServer(line) then k == 0 else k < |lines| && IsNameServer(lines[k])
  {
    hide IsNameServer;
  }

  /** Without an anchor every line survives in order, and two lines are added, right before the first name server line,
      or at the top when there is none. */
  lemma EntryComesFirst(lines: seq<string>, entry: string)
    requires Anchor() !in lines && lines != []
    ensures var r, k := Update(lines, entry), FirstNameServer(lines);
      && |r| == |lines| + 2 && r[k] == Anchor() && r[k + 1] == entry
      && r[..k] + r[k + 2..] == lines
      && (if forall line | line in lines :: !("nameserver" <= line) then k == 0 else k + 2 < |r| && "nameserver" <= r[k + 2])
      && forall i | 0 <= i < |r| && IsNameServer(r[i]) :: i >= k + 1
  {
    hide Anchor, IsNameServer, FirstNameServer;
    var r, k := Update(lines, entry), FirstNameServer(lines);
    FirstNameServerIs(lines);
    InsertedTwo(lines[..k], Anchor(), entry, lines[k..]);
    forall line ensures IsNameServer(line) <==> "nameserver" <= line {
      NameServerIs(line);
    }
    NotAnchor(Anchor());
    NameServerIs(Anchor());
    forall i | 0 <= i < k ensures !IsNameServer(r[i]) {
      assert r[..k][i] == lines[..k][i];
    }
  }

  /** The anchors that count: an anchor right after one that counts is overwritten like any other line. */
  predicate Counts(lines: seq<string>, i: nat)
    requires i < |lines|
  {
    lines[i] == Anchor() && (i > 0 ==> !Counts(lines, i - 1))
  }

  /** What a file with anchors becomes, line by line: the line after an anchor that counts is the new entry, every
      other line is untouched, and the file keeps its length unless its last line is an anchor that counts. */
  lemma {:induction false} OnlyEntriesChange(lines: seq<string>, entry: string, i: nat)
    requires i < |lines|
    ensures var r := Replace(lines, entry);
      && |r| == |lines| + (if Counts(lines, |lines| - 1) then 1 else 0)
      && r[i] == (if i > 0 && Counts(lines, i - 1) then entry else lines[i])
      && (Counts(lines, |lines| - 1) ==> r[|lines|] == entry)
    decreases |lines|
  {
    hide Anchor;
    var step := if lines[0] == Anchor() then 2 else 1;
    if step < |lines| {
      var rest := lines[step..];
      CountsRest(lines, step, |rest| - 1);
      if i >= step {
        OnlyEntriesChange(rest, entry, i - step);
        if i > step {
          CountsRest(lines, step, i - step - 1);
        }
      } else {
        OnlyEntriesChange(rest, entry, 0);
      }
    }
  }

  /** Behind the lines of one round of the scan, the same anchors count as in the rest on its own. */
  lemma {:induction false} CountsRest(lines: seq<string>, step: nat, i: nat)
    requires |lines| > 0 && step == (if lines[0] == Anchor() then 2 else 1) && step + i < |lines|
    ensures Counts(lines, step + i) == Counts(lines[step..], i)
    ensures step == 2 ==> !Counts(lines, 1)
  {
    hide Anchor;
    assert lines[step..][i] == lines[step + i];
    if i > 0 {
      CountsRest(lines, step, i - 1);
      assert step + (i - 1) == step + i - 1;
    } else {
      assert Counts(lines, 0) <==> step == 2;
    }
  }

  // ---- the code ----

  /** Where the scan stands: the first `pos` lines are read and `lines` collected. */
  ghost predicate Scanned(file: seq<string>, entry: string, lines: seq<string>, pos: nat, replaced: bool)
    requires pos <= |file|
  {
    && Replace(file, entry) == lines + Replace(file[pos..], entry)
    && (replaced <==> Anchor() in file[..pos])
    && (!replaced ==> lines == file[..pos])
  }

  lemma ScanPlain(file: seq<string>, entry: string, lines: seq<string>, pos: nat, replaced: bool)
    requires pos < |file| && Scanned(file, entry, lines, pos, replaced) && file[pos] != Anchor()
    ensures Scanned(file, entry, lines + [file[pos]], pos + 1, replaced)
  {
  }

  lemma ScanAnchor(file: seq<string>, entry: string, lines: seq<string>, pos: nat, replaced: bool)
    requires pos < |file| && Scanned(file, entry, lines, pos, replaced) && file[pos] == Anchor()
    ensures Scanned(file, entry, lines + [Anchor()] + [entry], if pos + 1 < |file| then pos + 2 else pos + 1, true)
  {
  }

  lemma ScanEnds(file: seq<string>, entry: string, lines: seq<string>, replaced: bool)
    requires Scanned(file, entry, lines, |file|, replaced)
    ensures lines == Replace(file, entry) && (replaced <==> Anchor() in file) && (!replaced ==> lines == file)
  {
  }

  /** The scanning loop. */
  method ScanLines(file: seq<string>, entry: string) returns (lines: seq<string>, first: nat, replaced: bool)
    ensures lines == Replace(file, entry) && (replaced <==> Anchor() in file) && (!replaced ==> lines == file)
    ensures !replaced ==> first == FirstNameServer(file)
  {
    hide IsNameServer, Scanned, Anchor;
    lines, first, replaced := [], 0, false;
    var pos, lineNum, found := 0, 0, false;
    ScanStarts(file, entry);
    while pos < |file|
      invariant 0 <= pos <= |file| && Scanned(file, entry, lines, pos, replaced)
      invariant !replaced ==> lineNum == pos
      invariant !found ==> first == 0
      invariant !replaced && !found ==> forall j | 0 <= j < pos :: !IsNameServer(file[j])
      invariant !replaced && found ==>
        first < pos && IsNameServer(file[first]) && forall j | 0 <= j < first :: !IsNameServer(file[j])
    {
      var line := file[pos];
      NotAnchor(line);
      NameServerIs(line);
      if NAMESERVER <= line && !found {
        first := lineNum;
        found := true;
        ScanPlain(file, entry, lines, pos, replaced);
        lines := lines + [line];
        pos := pos + 1;
      } else if line == Anchor() {
        ScanAnchor(file, entry, lines, pos, replaced);
        lines := lines + [line];
        lines := lines + [entry];
        pos := if pos + 1 < |file| then pos + 2 else pos + 1;
        replaced := true;
      } else {
        ScanPlain(file, entry, lines, pos, replaced);
        lines := lines + [line];
        pos := pos + 1;
      }
      lineNum := lineNum + 1;
    }
    ScanEnds(file, entry, lines, replaced);
    if !replaced {
      FirstIs(file, first, found);
    }
  }

  lemma ScanStarts(file: seq<string>, entry: string)
    ensures Scanned(file, entry, [], 0, false)
  {
  }

  lemma EmptyStays(file: seq<string>, entry: string)
    ensures Update(file, entry) == [] <==> file == []
  {
  }

  /** Reads the lines, replacing after anchors, then writes them; without an anchor the new entry is written
      before the first name server line. */
  method UpdateResolvConf(file: seq<string>, ip: string) returns (written: seq<string>)
    ensures written == Update(file, "nameserver " + ip)
    ensures written == [] <==> file == []
  {
    hide Replace, FirstNameServer, Anchor;
    var entry := "nameserver " + ip;
    EmptyStays(file, entry);
    var lines, first, replaced := ScanLines(file, entry);
    written := [];
    for i := 0 to |lines|
      invariant !replaced ==> first <= |lines|
      invariant written == if replaced || i <= first then lines[..i] else lines[..first] + [Anchor(), entry] + lines[first..i]
    {
      if !replaced && i == first {
        written := written + [Anchor()];
        written := written + [entry];
      }
      written := written + [lines[i]];
      assert lines[..i + 1] == lines[..i] + [lines[i]];
      if !replaced && i >= first {
        assert lines[first..i + 1] == lines[first..i] + [lines[i]];
      }
    }
    assert lines[..|lines|] == lines;
    if !replaced && lines != [] {
      FirstBefore(file);
      assert lines[first..|lines|] == lines[first..];
    }
  }

  lemma FirstBefore(lines: seq<string>)
    requires lines != []
    ensures FirstNameServer(lines) < |lines|
  {
  }

  lemma NotAnchor(line: string)
    ensures NAMESERVER <= line ==> line != Anchor() && IsNameServer(line)
  {
    if NAMESERVER <= line {
      assert line[0] == NAMESERVER[0] != Anchor()[0];
    }
  }

  lemma NameServerIs(line: string)
    ensures IsNameServer(line) <==> NAMESERVER <= line
  {
  }

  lemma FirstIs(lines: seq<string>, first: nat, found: bool)
    requires !found ==> first == 0 && forall j | 0 <= j < |lines| :: !IsNameServer(lines[j])
    requires found ==> first < |lines| && IsNameServer(lines[first]) && forall j | 0 <= j < first :: !IsNameServer(lines[j])
    ensures FirstNameServer(lines) == first
  {
  }
}
