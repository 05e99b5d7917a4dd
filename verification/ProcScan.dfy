/**
 One pass over /proc for a Linux process group: which entries count, what they
 sum to, and which executables are native compilers.
 */
module ProcScan {
  import opened Prelude

  function LowerChar(c: char): char {
    if 'A' <= c <= 'Z' then (c as int + 32) as char else c
  }

  /** ASCII `str.lower()`. */
  function Lower(s: string): (r: string)
    ensures |r| == |s|
    ensures forall i :: 0 <= i < |s| ==> r[i] == LowerChar(s[i])
  {
    if s == [] then [] else [LowerChar(s[0])] + Lower(s[1..])
  }

  predicate Contains(s: string, part: string) {
    part <= s || (s != [] && Contains(s[1..], part))
  }

  /** A native compiler or build executable, judged by its name alone. */
  predicate IsCompiler(name: string) {
    var lowered := Lower(name);
    || lowered in {"c++", "cc1plus", "nvcc", "ptxas"}
    || Contains(lowered, "nvcc")
    || Contains(lowered, "ptxas")
    || Contains(lowered, "g++")
    || EndsWith(lowered, "-c++")
  }

  /** The part is there at some place. */
  ghost predicate HasPart(s: string, part: string) {
    exists before: string, after: string :: IsSplit(s, before, part, after)
  }

  predicate IsSplit(s: string, before: string, part: string, after: string) {
    s == before + part + after
  }

  lemma SplitBefore(s: string, before: string, part: string, after: string)
    requires IsSplit(s, before, part, after)
    ensures part <= s || before != ""
  {
    if before == "" { assert s == part + after; }
  }

  lemma {:induction false} ContainsPart(s: string, part: string)
    ensures Contains(s, part) <==> HasPart(s, part)
  {
    if part <= s {
      assert IsSplit(s, "", part, s[|part|..]);
    } else if s != "" {
      ContainsPart(s[1..], part);
      if HasPart(s[1..], part) {
        var before, after :| IsSplit(s[1..], before, part, after);
        assert IsSplit(s, [s[0]] + before, part, after);
      }
      if HasPart(s, part) {
        var before, after :| IsSplit(s, before, part, after);
        SplitBefore(s, before, part, after);
        assert IsSplit(s[1..], before[1..], part, after);
      }
    }
  }

  lemma WholePart(part: string)
    ensures Contains(part, part)
  {
  }

  /** A name counts for any tool it contains in lower case, and "c++" only alone or after a dash. */
  lemma CompilersByName(name: string)
    ensures var s := Lower(name);
            IsCompiler(name) <==>
              || s == "c++" || s == "cc1plus" || EndsWith(s, "-c++")
              || HasPart(s, "nvcc") || HasPart(s, "ptxas") || HasPart(s, "g++")
  {
    var s := Lower(name);
    ContainsPart(s, "nvcc");
    ContainsPart(s, "ptxas");
    ContainsPart(s, "g++");
    WholePart("nvcc");
    WholePart("ptxas");
  }

  /** `os.path.basename` leaves no separator. */
  type BaseName = s: string | '/' !in s

  /** The names a scan may report. */
  predicate CompilerNames(names: set<string>) {
    forall x :: x in names ==> x != "" && '/' !in x && IsCompiler(x)
  }

  /**
   What the scan can read of one numeric /proc entry: the group in its stat
   line, the resident pages in its statm line, and the base name of its exe link
   ("" when unreadable). None stands for a file that vanished or did not parse.
   */
  datatype ProcEntry = ProcEntry(pid: int, group: Option<int>, pages: Option<int>, exe: BaseName)

  /** The result of one pass. */
  datatype Scan = Scan(rssBytes: int, processes: nat, leaderSeen: bool, compilers: set<string>)

  /** An entry that belongs to the group and whose pages could be read. */
  predicate Counted(e: ProcEntry, group: int) {
    e.group == Some(group) && e.pages.Some? && e.pages.value >= 0
  }

  function CountedPages(entries: seq<ProcEntry>, group: int): (pages: nat) {
    if entries == [] then 0
    else
      var last := entries[|entries| - 1];
      CountedPages(entries[..|entries| - 1], group) + if Counted(last, group) then last.pages.value else 0
  }

  function CountedEntries(entries: seq<ProcEntry>, group: int): (count: nat) {
    if entries == [] then 0
    else CountedEntries(entries[..|entries| - 1], group) + if Counted(entries[|entries| - 1], group) then 1 else 0
  }

  predicate LeaderCounted(entries: seq<ProcEntry>, group: int, leader: int) {
    if entries == [] then false
    else
      var last := entries[|entries| - 1];
      LeaderCounted(entries[..|entries| - 1], group, leader) || (Counted(last, group) && last.pid == leader)
  }

  function CountedCompilers(entries: seq<ProcEntry>, group: int): (names: set<string>)
    ensures CompilerNames(names)
  {
    if entries == [] then {}
    else
      var last := entries[|entries| - 1];
      CountedCompilers(entries[..|entries| - 1], group)
      + if Counted(last, group) && last.exe != "" && IsCompiler(last.exe) then {last.exe} else {}
  }

  /** Resident pages count once for every process that maps them, as the source intends. */
  method CollectDetails(entries: seq<ProcEntry>, group: int, leader: int, pageSize: nat) returns (scan: Scan)
    ensures scan == Scan(CountedPages(entries, group) * pageSize, CountedEntries(entries, group),
                         LeaderCounted(entries, group, leader), CountedCompilers(entries, group))
  {
    var pages, processes, leaderSeen := 0, 0, false;
    var compilers: set<string> := {};
    for i := 0 to |entries|
      invariant pages == CountedPages(entries[..i], group)
      invariant processes == CountedEntries(entries[..i], group)
      invariant leaderSeen == LeaderCounted(entries[..i], group, leader)
      invariant compilers == CountedCompilers(entries[..i], group)
    {
      assert entries[..i + 1][..i] == entries[..i];
      var e := entries[i];
      if !Counted(e, group) { continue; }
      if e.pid == leader { leaderSeen := true; }
      if e.exe != "" && IsCompiler(e.exe) { compilers := compilers + {e.exe}; }
      pages := pages + e.pages.value;
      processes := processes + 1;
    }
    assert entries[..|entries|] == entries;
    scan := Scan(pages * pageSize, processes, leaderSeen, compilers);
  }

  /**
   A scan sees the leader and a compiler exactly when a counted entry is one,
   and a scan with no counted entry sums to nothing.
   */
  lemma {:induction false} CountedMeaning(entries: seq<ProcEntry>, group: int, leader: int)
    ensures LeaderCounted(entries, group, leader) <==> exists e :: e in entries && Counted(e, group) && e.pid == leader
    ensures forall e :: Counted(e, group) <==> e.group == Some(group) && e.pages.Some? && e.pages.value >= 0
    ensures forall x :: x in CountedCompilers(entries, group) <==>
                        exists e :: e in entries && Counted(e, group) && e.exe == x && x != "" && IsCompiler(x)
    ensures CountedEntries(entries, group) == 0 <==> forall e :: e in entries ==> !Counted(e, group)
    ensures CountedEntries(entries, group) == 0 ==> CountedPages(entries, group) == 0
  {
    if entries != [] {
      var front, last := entries[..|entries| - 1], entries[|entries| - 1];
      CountedMeaning(front, group, leader);
      assert entries == front + [last];
      forall x ensures x in CountedCompilers(entries, group) <==>
                       exists e :: e in entries && Counted(e, group) && e.exe == x && x != "" && IsCompiler(x)
      {
      }
    }
  }
}
