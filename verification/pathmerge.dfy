/** Merging the PATH of three environments (internal/workspace/plan.go). */
module PathMerge {
  const PREFIX := "PATH="

  /** The entry sets PATH. */
  predicate SetsPath(item: string) {
    PREFIX <= item
  }

  function PathOf(item: string): string
    requires SetsPath(item)
  {
    item[|PREFIX|..]
  }

  /** strings.Split at every colon: always at least one piece. */
  function Split(s: string): (pieces: seq<string>)
    ensures pieces != []
  {
    var i := Colon(s);
    if i < |s| then [s[..i]] + Split(s[i + 1..]) else [s]
  }

  /** The position of the first colon, or the length. */
  function Colon(s: string): (i: nat)
    ensures i <= |s| && (forall j :: 0 <= j < i ==> s[j] != ':') && (i < |s| ==> s[i] == ':')
  {
    if s == "" then 0 else if s[0] == ':' then 0 else 1 + Colon(s[1..])
  }

  /** strings.Join with colons. */
  function Join(pieces: seq<string>): string {
    if pieces == [] then "" else if |pieces| == 1 then pieces[0] else pieces[0] + ":" + Join(pieces[1..])
  }

  predicate System(directory: string) {
    directory == "/usr/local/bin" || directory == "/usr/bin" || directory == "/bin"
  }

  // ---------- Sequences ----------

  /** The elements for which `test` says `want`, in order. */
  function Keep<T>(xs: seq<T>, test: T -> bool, want: bool): seq<T> {
    if xs == [] then []
    else
      var init, last := xs[..|xs| - 1], xs[|xs| - 1];
      Keep(init, test, want) + (if test(last) == want then [last] else [])
  }

  /** First occurrences only. */
  function Dedup<T(==)>(xs: seq<T>): seq<T> {
    if xs == [] then []
    else
      var init, last := xs[..|xs| - 1], xs[|xs| - 1];
      if last in init then Dedup(init) else Dedup(init) + [last]
  }

  lemma {:induction false} KeepMembers<T(!new)>(xs: seq<T>, test: T -> bool, want: bool)
    ensures forall x :: x in Keep(xs, test, want) <==> x in xs && test(x) == want
  {
    if xs != [] {
      var init, last := xs[..|xs| - 1], xs[|xs| - 1];
      assert xs == init + [last];
      KeepMembers(init, test, want);
    }
  }

  lemma {:induction false} DedupMembers<T(!new)>(xs: seq<T>)
    ensures forall x :: x in Dedup(xs) <==> x in xs
  {
    if xs != [] {
      var init, last := xs[..|xs| - 1], xs[|xs| - 1];
      assert xs == init + [last];
      DedupMembers(init);
    }
  }

  predicate Distinct<T(==,!new)>(xs: seq<T>) {
    forall i, j :: 0 <= i < j < |xs| ==> xs[i] != xs[j]
  }

  /** The position of the first occurrence. */
  function First<T(==,!new)>(xs: seq<T>, x: T): (i: nat)
    requires x in xs
    ensures i < |xs| && xs[i] == x && forall j :: 0 <= j < i ==> xs[j] != x
  {
    if xs[0] == x then 0 else 1 + First(xs[1..], x)
  }

  lemma FirstUnique<T(!new)>(xs: seq<T>, x: T, i: nat)
    requires i < |xs| && xs[i] == x && forall j :: 0 <= j < i ==> xs[j] != x
    ensures x in xs && First(xs, x) == i
  {
  }

  /** Dedup has each element once, ordered by first occurrence. */
  lemma {:induction false} DedupIsByFirstOccurrence<T(!new)>(xs: seq<T>)
    ensures Distinct(Dedup(xs)) && forall i :: 0 <= i < |Dedup(xs)| ==> Dedup(xs)[i] in xs
    ensures forall i, j :: 0 <= i < j < |Dedup(xs)| ==> First(xs, Dedup(xs)[i]) < First(xs, Dedup(xs)[j])
  {
    if xs != [] {
      var init, last := xs[..|xs| - 1], xs[|xs| - 1];
      DedupIsByFirstOccurrence(init);
      assert xs == init + [last];
      forall x | x in init ensures First(xs, x) == First(init, x) {
        FirstUnique(xs, x, First(init, x));
      }
      if last !in init {
        FirstUnique(xs, last, |init|);
      }
    }
  }

  lemma DedupAppend<T(!new)>(xs: seq<T>, x: T)
    ensures Dedup(xs + [x]) == if x in xs then Dedup(xs) else Dedup(xs) + [x]
  {
    assert (xs + [x])[..|xs|] == xs;
  }

  lemma {:induction false} DedupIdentity<T(!new)>(xs: seq<T>)
    requires Distinct(xs)
    ensures Dedup(xs) == xs
  {
    if xs != [] {
      DedupIdentity(xs[..|xs| - 1]);
      assert xs == xs[..|xs| - 1] + [xs[|xs| - 1]];
    }
  }

  lemma KeepAppend<T(!new)>(xs: seq<T>, x: T, test: T -> bool, want: bool)
    ensures Keep(xs + [x], test, want) == Keep(xs, test, want) + (if test(x) == want then [x] else [])
  {
    assert (xs + [x])[..|xs|] == xs;
  }

  lemma {:induction false} KeepConcat<T(!new)>(a: seq<T>, b: seq<T>, test: T -> bool, want: bool)
    ensures Keep(a + b, test, want) == Keep(a, test, want) + Keep(b, test, want)
  {
    if b == [] {
      assert a + b == a;
    } else {
      var last := b[|b| - 1];
      assert a + b == (a + b[..|b| - 1]) + [last];
      KeepAppend(a + b[..|b| - 1], last, test, want);
      KeepConcat(a, b[..|b| - 1], test, want);
    }
  }

  /** Nothing to leave out, or nothing to keep. */
  lemma {:induction false} KeepSame<T(!new)>(xs: seq<T>, test: T -> bool, want: bool)
    requires forall i :: 0 <= i < |xs| ==> test(xs[i]) == want
    ensures Keep(xs, test, want) == xs && Keep(xs, test, !want) == []
  {
    if xs != [] {
      KeepSame(xs[..|xs| - 1], test, want);
      assert xs == xs[..|xs| - 1] + [xs[|xs| - 1]];
    }
  }

  lemma KeepTwice<T(!new)>(xs: seq<T>, test: T -> bool, want: bool)
    ensures Keep(Keep(xs, test, want), test, want) == Keep(xs, test, want)
    ensures Keep(Keep(xs, test, want), test, !want) == []
  {
    var r := Keep(xs, test, want);
    KeepMembers(xs, test, want);
    assert forall i :: 0 <= i < |r| ==> r[i] in r;
    KeepSame(r, test, want);
  }

  lemma {:induction false} KeepDistinct<T(!new)>(xs: seq<T>, test: T -> bool, want: bool)
    requires Distinct(xs)
    ensures Distinct(Keep(xs, test, want))
  {
    if xs != [] {
      var init := xs[..|xs| - 1];
      KeepMembers(init, test, want);
      KeepDistinct(init, test, want);
    }
  }

  lemma ApartDistinct<T(!new)>(a: seq<T>, b: seq<T>)
    requires Distinct(a) && Distinct(b) && forall x :: x in a ==> x !in b
    ensures Distinct(a + b)
  {
    forall i, j | 0 <= i < j < |a + b| ensures (a + b)[i] != (a + b)[j] {
      if i < |a| <= j {
        assert a[i] in a && b[j - |a|] in b;
      }
    }
  }

  /** First occurrences, those that pass the test last; both groups keep their order. */
  function Arranged<T(==,!new)>(xs: seq<T>, test: T -> bool): seq<T> {
    Keep(Dedup(xs), test, false) + Keep(Dedup(xs), test, true)
  }

  /** The same elements, each once. */
  lemma ArrangedDistinct<T(!new)>(xs: seq<T>, test: T -> bool)
    ensures Distinct(Arranged(xs, test)) && forall x :: x in Arranged(xs, test) <==> x in xs
  {
    DedupIsByFirstOccurrence(xs);
    KeepDistinct(Dedup(xs), test, false);
    KeepDistinct(Dedup(xs), test, true);
    DedupMembers(xs);
    KeepMembers(Dedup(xs), test, false);
    KeepMembers(Dedup(xs), test, true);
    hide Keep, Dedup, Distinct;
    ApartDistinct(Keep(Dedup(xs), test, false), Keep(Dedup(xs), test, true));
  }

  /** What is arranged already stays as it is. */
  lemma ArrangedTwice<T(!new)>(xs: seq<T>, test: T -> bool)
    ensures Arranged(Arranged(xs, test), test) == Arranged(xs, test)
  {
    hide Keep, Dedup, Distinct;
    var first, last := Keep(Dedup(xs), test, false), Keep(Dedup(xs), test, true);
    ArrangedDistinct(xs, test);
    DedupIdentity(first + last);
    KeepConcat(first, last, test, false);
    KeepConcat(first, last, test, true);
    KeepTwice(Dedup(xs), test, false);
    KeepTwice(Dedup(xs), test, true);
    assert Keep(first + last, test, false) == first + [];
    assert Keep(first + last, test, true) == [] + last;
  }

  // ---------- What the result is ----------

  predicate Empty(s: string) {
    s == ""
  }

  /** The directories of all PATH entries, in order; empty ones do not count. */
  function Directories(items: seq<string>): seq<string> {
    if items == [] then []
    else
      var last := items[|items| - 1];
      Directories(items[..|items| - 1]) + (if SetsPath(last) then Keep(Split(PathOf(last)), Empty, false) else [])
  }

  function PathEntry(ds: seq<string>): seq<string> {
    if ds == [] then [] else [PREFIX + Join(ds)]
  }

  /** The entries that do not set PATH. */
  function Others(base: seq<string>, toolchains: seq<string>, omp: seq<string>): seq<string> {
    Keep(base, SetsPath, false) + Keep(toolchains, SetsPath, false) + Keep(omp, SetsPath, false)
  }

  /** All directories, by precedence. */
  function AllDirectories(base: seq<string>, toolchains: seq<string>, omp: seq<string>): seq<string> {
    Directories(omp) + Directories(toolchains) + Directories(base)
  }

  function Environment(base: seq<string>, toolchains: seq<string>, omp: seq<string>): seq<string> {
    Others(base, toolchains, omp) + PathEntry(Arranged(AllDirectories(base, toolchains, omp), System))
  }

  // ---------- The loops ----------

  /** The three variables of the loops, after the directories `done`. */
  datatype Collected = Collected(seen: set<string>, preferred: seq<string>, system: seq<string>)

  ghost predicate After(c: Collected, done: seq<string>) {
    && c.seen == (set d | d in done)
    && c.preferred == Keep(Dedup(done), System, false) && c.system == Keep(Dedup(done), System, true)
  }

  /** One directory: it joins its list unless it was seen. */
  method AddDirectory(given: Collected, ghost done: seq<string>, directory: string) returns (c: Collected)
    requires After(given, done)
    ensures After(c, done + [directory])
  {
    DedupAppend(done, directory);
    KeepAppend(Dedup(done), directory, System, false);
    KeepAppend(Dedup(done), directory, System, true);
    hide Keep, Dedup;
    if directory in given.seen {
      return given;
    }
    c := given.(seen := given.seen + {directory});
    if System(directory) {
      c := c.(system := c.system + [directory]);
    } else {
      c := c.(preferred := c.preferred + [directory]);
    }
  }

  lemma PiecesAppend(before: seq<string>, pieces: seq<string>, i: nat)
    requires i < |pieces|
    ensures var kept := before + Keep(pieces[..i], Empty, false);
      before + Keep(pieces[..i + 1], Empty, false) == if pieces[i] == "" then kept else kept + [pieces[i]]
  {
    assert pieces[..i + 1][..i] == pieces[..i];
  }

  lemma DirectoriesAppend(before: seq<string>, group: seq<string>, i: nat)
    requires i < |group|
    ensures before + Directories(group[..i + 1]) ==
      before + Directories(group[..i]) + (if SetsPath(group[i]) then Keep(Split(PathOf(group[i])), Empty, false) else [])
  {
    assert group[..i + 1][..i] == group[..i];
  }

  /** One PATH value. */
  method AddDirectories(given: Collected, ghost before: seq<string>, value: string) returns (c: Collected)
    requires After(given, before)
    ensures After(c, before + Keep(Split(value), Empty, false))
  {
    var pieces := Split(value);
    assert before + Keep(pieces[..0], Empty, false) == before;
    assert pieces[..|pieces|] == pieces;
    hide After, Keep;
    c := given;
    for i := 0 to |pieces|
      invariant After(c, before + Keep(pieces[..i], Empty, false))
    {
      PiecesAppend(before, pieces, i);
      if pieces[i] != "" {
        c := AddDirectory(c, before + Keep(pieces[..i], Empty, false), pieces[i]);
      }
    }
  }

  /** The PATH entries of one group. */
  method AddGroup(given: Collected, ghost before: seq<string>, group: seq<string>) returns (c: Collected)
    requires After(given, before)
    ensures After(c, before + Directories(group))
  {
    assert before + Directories(group[..0]) == before;
    assert group[..|group|] == group;
    hide After, Directories, Split, Keep;
    c := given;
    for i := 0 to |group|
      invariant After(c, before + Directories(group[..i]))
    {
      DirectoriesAppend(before, group, i);
      if SetsPath(group[i]) {
        c := AddDirectories(c, before + Directories(group[..i]), PathOf(group[i]));
      } else {
        assert before + Directories(group[..i]) + [] == before + Directories(group[..i]);
      }
    }
  }

  /** The entries of one group that do not set PATH. */
  method AddOthers(environment0: seq<string>, group: seq<string>) returns (environment: seq<string>)
    ensures environment == environment0 + Keep(group, SetsPath, false)
  {
    environment := environment0;
    for i := 0 to |group|
      invariant environment == environment0 + Keep(group[..i], SetsPath, false)
    {
      assert group[..i + 1][..i] == group[..i];
      if !SetsPath(group[i]) {
        environment := environment + [group[i]];
      }
    }
    assert group[..|group|] == group;
  }

  method OtherEntries(base: seq<string>, toolchains: seq<string>, omp: seq<string>) returns (environment: seq<string>)
    ensures environment == Others(base, toolchains, omp)
  {
    hide Keep;
    environment := AddOthers([], base);
    assert [] + Keep(base, SetsPath, false) == Keep(base, SetsPath, false);
    environment := AddOthers(environment, toolchains);
    environment := AddOthers(environment, omp);
  }

  /** The groups in the order of precedence. */
  method Collect(base: seq<string>, toolchains: seq<string>, omp: seq<string>) returns (c: Collected)
    ensures After(c, AllDirectories(base, toolchains, omp))
  {
    c := Collected({}, [], []);
    assert After(c, []);
    hide After, Directories;
    assert [] + Directories(omp) == Directories(omp);
    c := AddGroup(c, [], omp);
    c := AddGroup(c, Directories(omp), toolchains);
    c := AddGroup(c, Directories(omp) + Directories(toolchains), base);
  }

  /** `runtimeEnvironment`. */
  method RuntimeEnvironment(base: seq<string>, toolchains: seq<string>, omp: seq<string>) returns (environment: seq<string>)
    ensures environment == Environment(base, toolchains, omp)
  {
    hide After, AllDirectories, Others, Arranged, PathEntry;
    environment := OtherEntries(base, toolchains, omp);
    var c := Collect(base, toolchains, omp);
    Finished(c, AllDirectories(base, toolchains, omp));
    environment := AddPath(environment, c);
  }

  lemma Finished(c: Collected, done: seq<string>)
    requires After(c, done)
    ensures c.preferred + c.system == Arranged(done, System)
  {
  }

  method AddPath(environment0: seq<string>, c: Collected) returns (environment: seq<string>)
    ensures environment == environment0 + PathEntry(c.preferred + c.system)
  {
    environment := environment0;
    if |c.preferred| + |c.system| != 0 {
      environment := environment + [PREFIX + Join(c.preferred + c.system)];
    }
  }

  // ---------- Running it on its own output ----------

  /** Directories as Split leaves them. */
  predicate Clean(ds: seq<string>) {
    forall d :: d in ds ==> d != "" && ':' !in d
  }

  lemma {:induction false} SplitPieces(s: string)
    ensures forall d :: d in Split(s) ==> ':' !in d
  {
    if Colon(s) < |s| {
      SplitPieces(s[Colon(s) + 1..]);
    }
  }

  lemma CleanTail(ds: seq<string>)
    requires ds != [] && Clean(ds)
    ensures Clean(ds[1..]) && ':' !in ds[0]
  {
    assert forall d :: d in ds[1..] ==> d in ds;
    assert ds[0] in ds;
  }

  lemma {:induction false} SplitJoin(ds: seq<string>)
    requires ds != [] && Clean(ds)
    ensures Split(Join(ds)) == ds
  {
    var first := ds[0];
    CleanTail(ds);
    if |ds| == 1 {
      ColonAt(first, "", |first|);
      assert first + "" == first;
    } else {
      var rest := Join(ds[1..]);
      hide Clean;
      SplitJoin(ds[1..]);
      ColonAt(first, ":" + rest, |first|);
      assert first + ":" + rest == first + (":" + rest);
      assert (first + (":" + rest))[..|first|] == first;
      assert (first + (":" + rest))[|first| + 1..] == rest;
      assert [first] + ds[1..] == ds;
    }
  }

  lemma ColonAt(first: string, rest: string, n: nat)
    requires ':' !in first && n == |first| && (rest == "" || rest[0] == ':')
    ensures Colon(first + rest) == n
  {
    var s := first + rest;
    assert forall j :: 0 <= j < n ==> s[j] == first[j] && first[j] in first;
    if rest != "" {
      assert s[n] == ':';
    }
  }

  lemma CleanConcat(a: seq<string>, b: seq<string>)
    requires Clean(a) && Clean(b)
    ensures Clean(a + b)
  {
  }

  lemma CleanSame(a: seq<string>, b: seq<string>)
    requires Clean(a) && forall d :: d in b ==> d in a
    ensures Clean(b)
  {
  }

  lemma {:induction false} DirectoriesClean(items: seq<string>)
    ensures Clean(Directories(items))
  {
    if items != [] {
      DirectoriesClean(items[..|items| - 1]);
      var last := items[|items| - 1];
      if SetsPath(last) {
        SplitPieces(PathOf(last));
        KeepMembers(Split(PathOf(last)), Empty, false);
        CleanConcat(Directories(items[..|items| - 1]), Keep(Split(PathOf(last)), Empty, false));
      }
    }
  }

  lemma MergedClean(base: seq<string>, toolchains: seq<string>, omp: seq<string>)
    ensures Clean(Arranged(AllDirectories(base, toolchains, omp), System))
  {
    DirectoriesClean(base);
    DirectoriesClean(toolchains);
    DirectoriesClean(omp);
    hide Directories, Arranged, Clean;
    CleanConcat(Directories(omp), Directories(toolchains));
    CleanConcat(Directories(omp) + Directories(toolchains), Directories(base));
    ArrangedDistinct(AllDirectories(base, toolchains, omp), System);
    CleanSame(AllDirectories(base, toolchains, omp), Arranged(AllDirectories(base, toolchains, omp), System));
  }

  lemma {:induction false} DirectoriesConcat(a: seq<string>, b: seq<string>)
    ensures Directories(a + b) == Directories(a) + Directories(b)
  {
    if b == [] {
      assert a + b == a;
    } else {
      assert (a + b)[..|a + b| - 1] == a + b[..|b| - 1];
      DirectoriesConcat(a, b[..|b| - 1]);
    }
  }

  lemma {:induction false} NoDirectories(items: seq<string>)
    requires forall i :: 0 <= i < |items| ==> !SetsPath(items[i])
    ensures Directories(items) == []
  {
    if items != [] {
      NoDirectories(items[..|items| - 1]);
    }
  }

  /** The PATH entry reads back as the directories it was made of. */
  lemma PathEntryReadsBack(ds: seq<string>)
    requires Clean(ds)
    ensures Directories(PathEntry(ds)) == ds && Keep(PathEntry(ds), SetsPath, false) == []
  {
    if ds != [] {
      var item := PREFIX + Join(ds);
      assert PathEntry(ds)[..0] == [] && PathOf(item) == Join(ds);
      SplitJoin(ds);
      assert forall i :: 0 <= i < |ds| ==> ds[i] in ds;
      KeepSame(ds, Empty, false);
    }
  }

  lemma OthersKept(base: seq<string>, toolchains: seq<string>, omp: seq<string>)
    ensures Keep(Others(base, toolchains, omp), SetsPath, false) == Others(base, toolchains, omp)
    ensures forall i :: 0 <= i < |Others(base, toolchains, omp)| ==> !SetsPath(Others(base, toolchains, omp)[i])
  {
    var others := Others(base, toolchains, omp);
    KeepMembers(base, SetsPath, false);
    KeepMembers(toolchains, SetsPath, false);
    KeepMembers(omp, SetsPath, false);
    forall i | 0 <= i < |others| ensures !SetsPath(others[i]) {
      assert others[i] in others;
    }
    KeepSame(others, SetsPath, false);
  }

  /** The merged environment has at most one entry that sets PATH, and it is the last; the others are
      those of the three groups, in their order. */
  lemma OnePath(base: seq<string>, toolchains: seq<string>, omp: seq<string>)
    ensures var r, others := Environment(base, toolchains, omp), Others(base, toolchains, omp);
      && others <= r && |r| <= |others| + 1
      && (forall i :: 0 <= i < |others| ==> !SetsPath(r[i]))
      && (|r| == |others| + 1 ==> SetsPath(r[|others|]))
      && Keep(r, SetsPath, false) == others
  {
    var path := PathEntry(Arranged(AllDirectories(base, toolchains, omp), System));
    MergedClean(base, toolchains, omp);
    PathEntryReadsBack(Arranged(AllDirectories(base, toolchains, omp), System));
    OthersKept(base, toolchains, omp);
    KeepConcat(Others(base, toolchains, omp), path, SetsPath, false);
    hide Keep, Directories, Arranged;
  }

  // ---------- Precedence ----------

  /** `d` comes before `e`. */
  ghost predicate Before<T(!new)>(xs: seq<T>, d: T, e: T) {
    exists i, j :: 0 <= i < j < |xs| && xs[i] == d && xs[j] == e
  }

  lemma BeforeIn<T(!new)>(xs: seq<T>, d: T, e: T, more: seq<T>)
    requires Before(xs, d, e)
    ensures Before(xs + more, d, e) && Before(more + xs, d, e)
  {
    var i, j :| 0 <= i < j < |xs| && xs[i] == d && xs[j] == e;
    assert (xs + more)[i] == d && (xs + more)[j] == e;
    assert (more + xs)[|more| + i] == d && (more + xs)[|more| + j] == e;
  }

  lemma {:induction false} KeepOrder<T(!new)>(xs: seq<T>, test: T -> bool, want: bool, d: T, e: T)
    requires Before(xs, d, e) && test(d) == test(e) == want
    ensures Before(Keep(xs, test, want), d, e)
  {
    var i, j :| 0 <= i < j < |xs| && xs[i] == d && xs[j] == e;
    var init := xs[..|xs| - 1];
    if j < |xs| - 1 {
      assert init[i] == d && init[j] == e;
      KeepOrder(init, test, want, d, e);
      BeforeIn(Keep(init, test, want), d, e, if test(xs[|xs| - 1]) == want then [xs[|xs| - 1]] else []);
    } else {
      assert init[i] == d;
      KeepMembers(init, test, want);
      var kept := Keep(init, test, want);
      var k :| 0 <= k < |kept| && kept[k] == d;
      assert (kept + [e])[k] == d && (kept + [e])[|kept|] == e;
    }
  }

  lemma DedupOrder<T(!new)>(xs: seq<T>, d: T, e: T)
    requires d in xs && e in xs && First(xs, d) < First(xs, e)
    ensures Before(Dedup(xs), d, e)
  {
    DedupIsByFirstOccurrence(xs);
    DedupMembers(xs);
    var i :| 0 <= i < |Dedup(xs)| && Dedup(xs)[i] == d;
    var j :| 0 <= j < |Dedup(xs)| && Dedup(xs)[j] == e;
    hide Dedup;
    assert i < j;
  }

  /** Of two directories that are both of the system or both not, the one that occurs first stays first. */
  lemma ArrangedOrder<T(!new)>(xs: seq<T>, test: T -> bool, d: T, e: T)
    requires d in xs && e in xs && First(xs, d) < First(xs, e) && test(d) == test(e)
    ensures Before(Arranged(xs, test), d, e)
  {
    DedupOrder(xs, d, e);
    KeepOrder(Dedup(xs), test, test(d), d, e);
    BeforeIn(Keep(Dedup(xs), test, test(d)), d, e, Keep(Dedup(xs), test, !test(d)));
  }

  lemma FirstInFront<T(!new)>(a: seq<T>, b: seq<T>, d: T, e: T)
    requires d in a && e !in a && e in b
    ensures d in a + b && e in a + b && First(a + b, d) < First(a + b, e)
  {
    FirstUnique(a + b, d, First(a, d));
    assert forall j :: 0 <= j < |a| ==> (a + b)[j] == a[j] && a[j] in a;
  }

  lemma PathIs(base: seq<string>, toolchains: seq<string>, omp: seq<string>)
    ensures Directories(Environment(base, toolchains, omp)) ==
      Arranged(Directories(omp) + Directories(toolchains) + Directories(base), System)
  {
    var ds := Arranged(AllDirectories(base, toolchains, omp), System);
    MergedClean(base, toolchains, omp);
    PathEntryReadsBack(ds);
    OthersKept(base, toolchains, omp);
    NoDirectories(Others(base, toolchains, omp));
    DirectoriesConcat(Others(base, toolchains, omp), PathEntry(ds));
    hide Keep, Directories, Arranged, PathEntry, Others;
    assert [] + ds == ds;
  }

  /** In the PATH of the merged environment a directory of omp precedes one that is found only in toolchains or
      base, and one of toolchains precedes one that is found only in base; except that the system
      directories come last. */
  lemma Precedence(base: seq<string>, toolchains: seq<string>, omp: seq<string>, d: string, e: string)
    requires e in Directories(toolchains) || e in Directories(base)
    requires e !in Directories(omp)
    requires d in Directories(omp) || (d in Directories(toolchains) && e !in Directories(toolchains))
    requires System(d) ==> System(e)
    ensures Before(Directories(Environment(base, toolchains, omp)), d, e)
  {
    PathIs(base, toolchains, omp);
    var a, b, c := Directories(omp), Directories(toolchains), Directories(base);
    hide Directories;
    assert a + b + c == a + (b + c);
    if d in a {
      FirstInFront(a, b + c, d, e);
    } else {
      FirstInFront(a + b, c, d, e);
    }
    if System(d) == System(e) {
      ArrangedOrder(a + b + c, System, d, e);
    } else {
      SystemLast(a + b + c, System, d, e);
    }
  }

  lemma SystemLast<T(!new)>(xs: seq<T>, test: T -> bool, d: T, e: T)
    requires d in xs && e in xs && !test(d) && test(e)
    ensures Before(Arranged(xs, test), d, e)
  {
    DedupMembers(xs);
    KeepMembers(Dedup(xs), test, false);
    KeepMembers(Dedup(xs), test, true);
    var a, b := Keep(Dedup(xs), test, false), Keep(Dedup(xs), test, true);
    var i :| 0 <= i < |a| && a[i] == d;
    var j :| 0 <= j < |b| && b[j] == e;
    assert (a + b)[i] == d && (a + b)[|a| + j] == e;
  }

  /** Merging the result again, with nothing to add, changes nothing. */
  lemma MergedTwice(base: seq<string>, toolchains: seq<string>, omp: seq<string>)
    ensures var r := Environment(base, toolchains, omp); Environment(r, [], []) == r
  {
    var others, ds := Others(base, toolchains, omp), Arranged(AllDirectories(base, toolchains, omp), System);
    var r := Environment(base, toolchains, omp);
    OnePath(base, toolchains, omp);
    MergedClean(base, toolchains, omp);
    PathEntryReadsBack(ds);
    OthersKept(base, toolchains, omp);
    NoDirectories(others);
    DirectoriesConcat(others, PathEntry(ds));
    ArrangedTwice(AllDirectories(base, toolchains, omp), System);
    Nothing(r);
    hide Keep, Directories, Arranged, PathEntry, Others, AllDirectories;
    assert [] + ds == ds;
  }

  lemma Nothing(r: seq<string>)
    ensures Others(r, [], []) == Keep(r, SetsPath, false) && AllDirectories(r, [], []) == Directories(r)
  {
  }
}
