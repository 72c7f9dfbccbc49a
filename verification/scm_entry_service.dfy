/**
 * The Scientific Code Marketplace (SCM) side of the portal: turning a catalogue
 * solution and its toolbox into the variables of a provisioning (Puppet) module,
 * choosing the solutions this portal can run, grouping a job's VM images by
 * cloud provider, and looking up pre-built VM snapshots.
 *
 * Catalogue records (dependencies, images, the toolbox source) arrive as untyped
 * string maps; a key that is absent reads as `null`, which is `None` here.
 */
module ScmEntryService {
  import opened Wrappers

  /** An untyped catalogue record: a dependency, an image or a source descriptor. */
  type Record = map<string, string>

  /** `record.get(key)`: the value, or null when the key is absent. */
  function Get(r: Record, key: string): (v: Option<string>)
    ensures v.Some? <==> key in r
    ensures v.Some? ==> v.value == r[key]
  {
    if key in r then Some(r[key]) else None
  }

  /** A toolbox as `getToolbox(true)` returns it: fully resolved. */
  datatype Toolbox = Toolbox(
    url: string,
    name: Option<string>,
    source: Record,
    dependencies: seq<Record>,
    images: seq<Record>)

  /** A catalogue solution, carrying its resolved toolbox. */
  datatype Solution = Solution(
    url: string,
    name: string,
    toolbox: Toolbox,
    dependencies: seq<Record>)

  // ---------------------------------------------------------------------------
  // Sequences
  // ---------------------------------------------------------------------------

  /** `a` can be obtained from `b` by deleting elements. */
  predicate IsSubsequence<T(==)>(a: seq<T>, b: seq<T>)
    decreases |b|
  {
    if a == [] then true
    else if b == [] then false
    else if a[0] == b[0] then IsSubsequence(a[1..], b[1..])
    else IsSubsequence(a, b[1..])
  }

  lemma {:induction false} IsSubsequenceCons<T>(x: T, a: seq<T>, b: seq<T>)
    requires IsSubsequence(a, b)
    ensures IsSubsequence(a, [x] + b) && IsSubsequence([x] + a, [x] + b)
  {
    assert ([x] + b)[1..] == b;
    assert ([x] + a)[1..] == a;
    if a != [] && a[0] == x {
      IsSubsequenceDropHead(a, b);
    }
  }

  lemma {:induction false} IsSubsequenceDropHead<T>(a: seq<T>, b: seq<T>)
    requires a != [] && IsSubsequence(a, b)
    ensures IsSubsequence(a[1..], b)
    decreases |b|
  {
    if b != [] {
      if a[0] != b[0] {
        IsSubsequenceDropHead(a, b[1..]);
      }
      if a[1..] != [] && a[1..][0] == b[0] {
        IsSubsequenceDropHead(a[1..], b[1..]);
        assert a[1..][1..] == a[2..];
      }
    }
  }

  // ---------------------------------------------------------------------------
  // Dependency merge: dependencies() and puppetTemplateVars()
  // ---------------------------------------------------------------------------

  /** Where a dependency goes in the manifest. */
  datatype Kind = SystemPackage | PythonPackage | PythonRequirement | Dropped

  /** Every dependency carries a "type" key (Java's switch on a null type throws). */
  predicate AllTyped(deps: seq<Record>) {
    forall d | d in deps :: "type" in d
  }

  /** The manifest list a dependency belongs to. */
  function KindOf(d: Record): Kind
    requires "type" in d
  {
    if d["type"] == "system" then SystemPackage
    else if d["type"] == "python" then (if "path" in d then PythonRequirement else PythonPackage)
    else Dropped
  }

  /** The entry a dependency contributes: its path for a requirements file, else its name. */
  function EntryOf(d: Record): Option<string>
    requires "type" in d
  {
    if KindOf(d) == PythonRequirement then Get(d, "path") else Get(d, "name")
  }

  /** What one dependency contributes to the list of kind `k`. */
  function Contribution(d: Record, k: Kind): seq<Option<string>>
    requires "type" in d
  {
    if KindOf(d) == k then [EntryOf(d)] else []
  }

  /** The entries of kind `k`, in dependency order, duplicates kept. */
  function Entries(deps: seq<Record>, k: Kind): seq<Option<string>>
    requires AllTyped(deps)
  {
    if deps == [] then [] else Contribution(deps[0], k) + Entries(deps[1..], k)
  }

  /** Merging two dependency lists in turn is merging their concatenation. */
  lemma {:induction false} EntriesAppend(a: seq<Record>, b: seq<Record>, k: Kind)
    requires AllTyped(a) && AllTyped(b)
    ensures AllTyped(a + b)
    ensures Entries(a + b, k) == Entries(a, k) + Entries(b, k)
    decreases |a|
  {
    if a == [] {
      assert a + b == b;
    } else {
      assert (a + b)[0] == a[0];
      assert (a + b)[1..] == a[1..] + b;
      EntriesAppend(a[1..], b, k);
      calc {
        Entries(a + b, k);
        Contribution(a[0], k) + Entries(a[1..] + b, k);
        Contribution(a[0], k) + (Entries(a[1..], k) + Entries(b, k));
        (Contribution(a[0], k) + Entries(a[1..], k)) + Entries(b, k);
        Entries(a, k) + Entries(b, k);
      }
    }
  }

  /** Merging one more dependency appends its contribution. */
  lemma EntriesSnoc(deps: seq<Record>, d: Record, k: Kind)
    requires AllTyped(deps) && "type" in d
    ensures AllTyped(deps + [d])
    ensures Entries(deps + [d], k) == Entries(deps, k) + Contribution(d, k)
  {
    EntriesAppend(deps, [d], k);
    assert [d][1..] == [];
  }

  /**
   * A value is an entry of kind `k` exactly when some dependency of that kind
   * contributes it: nothing is invented and nothing of that kind is lost.
   */
  lemma {:induction false} EntriesMembership(deps: seq<Record>, k: Kind, x: Option<string>)
    requires AllTyped(deps)
    ensures x in Entries(deps, k) <==>
            exists i :: 0 <= i < |deps| && KindOf(deps[i]) == k && EntryOf(deps[i]) == x
    decreases |deps|
  {
    if deps != [] {
      var rest := deps[1..];
      EntriesMembership(rest, k, x);
      if x in Entries(deps, k) {
        if !(KindOf(deps[0]) == k && EntryOf(deps[0]) == x) {
          var j :| 0 <= j < |rest| && KindOf(rest[j]) == k && EntryOf(rest[j]) == x;
          assert deps[j + 1] == rest[j];
        }
      } else {
        forall i | 0 <= i < |deps| && KindOf(deps[i]) == k
          ensures EntryOf(deps[i]) != x
        {
          if i > 0 { assert deps[i] == rest[i - 1]; }
        }
      }
    }
  }

  /** Every dependency lands in exactly one of the three lists or is dropped. */
  lemma {:induction false} EntriesPartition(deps: seq<Record>)
    requires AllTyped(deps)
    ensures |Entries(deps, SystemPackage)| + |Entries(deps, PythonPackage)|
            + |Entries(deps, PythonRequirement)| + |Entries(deps, Dropped)| == |deps|
    decreases |deps|
  {
    if deps != [] {
      EntriesPartition(deps[1..]);
    }
  }

  /** One step of the `dependencies` loop for the list of kind `k`. */
  lemma DependenciesStep(deps: seq<Record>, i: nat, k: Kind, list: seq<Option<string>>, start: seq<Option<string>>)
    requires AllTyped(deps) && i < |deps|
    requires AllTyped(deps[..i]) && list == start + Entries(deps[..i], k)
    ensures AllTyped(deps[..i + 1])
    ensures list + Contribution(deps[i], k) == start + Entries(deps[..i + 1], k)
  {
    assert deps[..i + 1] == deps[..i] + [deps[i]];
    EntriesSnoc(deps[..i], deps[i], k);
  }

  /**
   * `dependencies(deps, system, python, requirements)`: appends each dependency's
   * entry to the list its type selects: a "system" one's name to the system
   * packages; a "python" one's path to the requirements when it has a path, its
   * name to the python packages otherwise; any other type is only logged. The
   * three lists are returned updated.
   */
  method Dependencies(
    deps: seq<Record>,
    systemPackages: seq<Option<string>>,
    pythonPackages: seq<Option<string>>,
    requirements: seq<Option<string>>)
    returns (
      systemPackages': seq<Option<string>>,
      pythonPackages': seq<Option<string>>,
      requirements': seq<Option<string>>)
    requires AllTyped(deps)
    ensures systemPackages' == systemPackages + Entries(deps, SystemPackage)
    ensures pythonPackages' == pythonPackages + Entries(deps, PythonPackage)
    ensures requirements' == requirements + Entries(deps, PythonRequirement)
  {
    systemPackages', pythonPackages', requirements' := systemPackages, pythonPackages, requirements;
    var i := 0;
    while i < |deps|
      invariant 0 <= i <= |deps|
      invariant AllTyped(deps[..i])
      invariant systemPackages' == systemPackages + Entries(deps[..i], SystemPackage)
      invariant pythonPackages' == pythonPackages + Entries(deps[..i], PythonPackage)
      invariant requirements' == requirements + Entries(deps[..i], PythonRequirement)
    {
      var dep := deps[i];
      DependenciesStep(deps, i, SystemPackage, systemPackages', systemPackages);
      DependenciesStep(deps, i, PythonPackage, pythonPackages', pythonPackages);
      DependenciesStep(deps, i, PythonRequirement, requirements', requirements);
      if dep["type"] == "system" {
        systemPackages' := systemPackages' + [Get(dep, "name")];
      } else if dep["type"] == "python" {
        if "path" in dep {
          requirements' := requirements' + [Get(dep, "path")];
        } else {
          pythonPackages' := pythonPackages' + [Get(dep, "name")];
        }
      } else {
        // an unknown type is only logged
      }
      i := i + 1;
    }
    assert deps[..i] == deps;
  }

  /** The variables bound into the Puppet module template. */
  datatype TemplateVars = TemplateVars(
    scName: string,
    source: Record,
    systemPackages: seq<Option<string>>,
    pythonPackages: seq<Option<string>>,
    pythonRequirements: seq<Option<string>>)

  /**
   * `puppetTemplateVars(solution)`: the toolbox's safe name and source, and the
   * toolbox's dependencies merged before the solution's, as if in one pass.
   * The safe name is computed first, so a toolbox without a name throws a
   * `NullPointerException` (`None` here) before any dependency is read.
   */
  method PuppetTemplateVars(solution: Solution) returns (vars: Option<TemplateVars>)
    requires solution.toolbox.name.Some? ==>
             AllTyped(solution.toolbox.dependencies) && AllTyped(solution.dependencies)
    ensures vars.None? <==> solution.toolbox.name.None?
    ensures vars.Some? ==> AllTyped(solution.toolbox.dependencies + solution.dependencies)
    ensures vars.Some? ==> vars.value.scName == SafeScName(solution.toolbox.name.value)
    ensures vars.Some? ==> vars.value.source == solution.toolbox.source
    ensures vars.Some? ==>
            vars.value.systemPackages == Entries(solution.toolbox.dependencies, SystemPackage)
                                         + Entries(solution.dependencies, SystemPackage)
                                      == Entries(solution.toolbox.dependencies + solution.dependencies, SystemPackage)
    ensures vars.Some? ==>
            vars.value.pythonPackages == Entries(solution.toolbox.dependencies, PythonPackage)
                                         + Entries(solution.dependencies, PythonPackage)
                                      == Entries(solution.toolbox.dependencies + solution.dependencies, PythonPackage)
    ensures vars.Some? ==>
            vars.value.pythonRequirements == Entries(solution.toolbox.dependencies, PythonRequirement)
                                             + Entries(solution.dependencies, PythonRequirement)
                                          == Entries(solution.toolbox.dependencies + solution.dependencies,
                                                     PythonRequirement)
  {
    var toolbox := solution.toolbox;
    if toolbox.name.None? {
      return None;
    }
    var scName := SafeScName(toolbox.name.value);
    var sys, py, req := Dependencies(toolbox.dependencies, [], [], []);
    assert sys == Entries(toolbox.dependencies, SystemPackage);
    assert py == Entries(toolbox.dependencies, PythonPackage);
    assert req == Entries(toolbox.dependencies, PythonRequirement);
    sys, py, req := Dependencies(solution.dependencies, sys, py, req);
    EntriesAppend(toolbox.dependencies, solution.dependencies, SystemPackage);
    EntriesAppend(toolbox.dependencies, solution.dependencies, PythonPackage);
    EntriesAppend(toolbox.dependencies, solution.dependencies, PythonRequirement);
    vars := Some(TemplateVars(scName, toolbox.source, sys, py, req));
  }

  /** Merge scenario: toolbox [system gcc, python numpy], solution [system make, python reqs/req.txt]. */
  lemma MergeScenario(toolboxDeps: seq<Record>, solutionDeps: seq<Record>)
    requires toolboxDeps == [map["type" := "system", "name" := "gcc"], map["type" := "python", "name" := "numpy"]]
    requires solutionDeps == [map["type" := "system", "name" := "make"], map["type" := "python", "path" := "reqs/req.txt"]]
    ensures AllTyped(toolboxDeps + solutionDeps)
    ensures Entries(toolboxDeps + solutionDeps, SystemPackage) == [Some("gcc"), Some("make")]
    ensures Entries(toolboxDeps + solutionDeps, PythonPackage) == [Some("numpy")]
    ensures Entries(toolboxDeps + solutionDeps, PythonRequirement) == [Some("reqs/req.txt")]
  {
    var all := toolboxDeps + solutionDeps;
    assert all == [all[0]] + [all[1]] + [all[2]] + [all[3]];
    EntriesSnoc([], all[0], SystemPackage);
    assert Entries([], SystemPackage) == [];
    forall k ensures Entries(all, k) == Contribution(all[0], k) + Contribution(all[1], k)
                                        + Contribution(all[2], k) + Contribution(all[3], k) {
      EntriesSnoc([all[0]], all[1], k);
      EntriesSnoc([all[0], all[1]], all[2], k);
      EntriesSnoc([all[0], all[1], all[2]], all[3], k);
      EntriesSnoc([], all[0], k);
      assert [all[0]] + [all[1]] == [all[0], all[1]];
      assert [all[0], all[1]] + [all[2]] == [all[0], all[1], all[2]];
      assert [all[0], all[1], all[2]] + [all[3]] == all;
    }
  }

  // ---------------------------------------------------------------------------
  // Name sanitiser: safeScName()
  // ---------------------------------------------------------------------------

  /** A character of Java's regex class `\w`: `[a-zA-Z_0-9]`. */
  predicate IsWordChar(c: char) {
    ('a' <= c <= 'z') || ('A' <= c <= 'Z') || ('0' <= c <= '9') || c == '_'
  }

  predicate AllWordChars(s: string) {
    forall i | 0 <= i < |s| :: IsWordChar(s[i])
  }

  /** `name.replaceAll("\\W", "")`: the name with every non-word character removed. */
  function SafeScName(name: string): (r: string)
    ensures AllWordChars(r)
    ensures |r| <= |name|
  {
    if name == [] then []
    else (if IsWordChar(name[0]) then [name[0]] else []) + SafeScName(name[1..])
  }

  /** Sanitising distributes over concatenation. */
  lemma {:induction false} SafeScNameAppend(a: string, b: string)
    ensures SafeScName(a + b) == SafeScName(a) + SafeScName(b)
    decreases |a|
  {
    if a == [] {
      assert a + b == b;
    } else {
      assert (a + b)[0] == a[0];
      assert (a + b)[1..] == a[1..] + b;
      SafeScNameAppend(a[1..], b);
      var head := if IsWordChar(a[0]) then [a[0]] else [];
      calc {
        SafeScName(a + b);
        head + SafeScName(a[1..] + b);
        head + (SafeScName(a[1..]) + SafeScName(b));
        (head + SafeScName(a[1..])) + SafeScName(b);
        SafeScName(a) + SafeScName(b);
      }
    }
  }

  /** A name made only of word characters is left as it is. */
  lemma {:induction false} SafeScNameOfWordString(s: string)
    requires AllWordChars(s)
    ensures SafeScName(s) == s
    decreases |s|
  {
    if s != [] {
      assert AllWordChars(s[1..]) by {
        forall i | 0 <= i < |s[1..]| ensures IsWordChar(s[1..][i]) { assert s[1..][i] == s[i + 1]; }
      }
      SafeScNameOfWordString(s[1..]);
      assert s == [s[0]] + s[1..];
    }
  }

  /** A name without word characters becomes empty. */
  lemma {:induction false} SafeScNameOfNonWordString(s: string)
    requires forall i | 0 <= i < |s| :: !IsWordChar(s[i])
    ensures SafeScName(s) == []
    decreases |s|
  {
    if s != [] {
      SafeScNameOfNonWordString(s[1..]);
    }
  }

  /** Sanitising twice is sanitising once. */
  lemma SafeScNameIdempotent(name: string)
    ensures SafeScName(SafeScName(name)) == SafeScName(name)
  {
    SafeScNameOfWordString(SafeScName(name));
  }

  /** The result keeps the name's characters in order. */
  lemma {:induction false} SafeScNameIsSubsequence(name: string)
    ensures IsSubsequence(SafeScName(name), name)
    decreases |name|
  {
    if name != [] {
      var rest := name[1..];
      SafeScNameIsSubsequence(rest);
      IsSubsequenceCons(name[0], SafeScName(rest), rest);
      assert name == [name[0]] + rest;
      if IsWordChar(name[0]) {
        assert SafeScName(name) == [name[0]] + SafeScName(rest);
      } else {
        assert SafeScName(name) == [] + SafeScName(rest) == SafeScName(rest);
      }
    }
  }

  /** The result holds each word character as often as the name does, and nothing else. */
  lemma {:induction false} SafeScNameCounts(name: string, c: char)
    ensures multiset(SafeScName(name))[c] == if IsWordChar(c) then multiset(name)[c] else 0
    decreases |name|
  {
    if name != [] {
      var rest := name[1..];
      SafeScNameCounts(rest, c);
      assert name == [name[0]] + rest;
      assert multiset(name) == multiset([name[0]]) + multiset(rest);
      var head := if IsWordChar(name[0]) then [name[0]] else [];
      assert SafeScName(name) == head + SafeScName(rest);
      assert multiset(SafeScName(name)) == multiset(head) + multiset(SafeScName(rest));
    }
  }

  /**
   * The result is exactly the word characters of the name: a subsequence of the
   * name that holds every word character as often as the name does and no other
   * character.
   */
  lemma SafeScNameIsWordSubsequence(name: string)
    ensures IsSubsequence(SafeScName(name), name)
    ensures forall c :: multiset(SafeScName(name))[c] == if IsWordChar(c) then multiset(name)[c] else 0
  {
    SafeScNameIsSubsequence(name);
    forall c ensures multiset(SafeScName(name))[c] == if IsWordChar(c) then multiset(name)[c] else 0 {
      SafeScNameCounts(name, c);
    }
  }

  /** Sanitiser scenario: a name of symbols only becomes empty, without failing. */
  lemma SafeScNameEmptyExample()
    ensures SafeScName("!!!") == ""
  {
  }

  // ---------------------------------------------------------------------------
  // Solution filter: usefulSolutions()
  // ---------------------------------------------------------------------------

  /** The provider ids as nullable values (a null provider matches none of them). */
  function ProviderOptions(providers: set<string>): (r: set<Option<string>>)
    ensures forall p :: Some(p) in r <==> p in providers
    ensures None !in r
  {
    set p | p in providers :: Some(p)
  }

  /** The solution's toolbox has at least one image at a provider in `providers`. */
  predicate HasUsableImage(s: Solution, providers: set<string>) {
    exists i :: 0 <= i < |s.toolbox.images| && Get(s.toolbox.images[i], "provider") in ProviderOptions(providers)
  }

  /**
   * What `usefulSolutions` returns as coded: every solution is added, and added a
   * second time right after when it has a usable image.
   */
  function UsefulAsCoded(solutions: seq<Solution>, providers: set<string>): seq<Solution> {
    if solutions == [] then []
    else [solutions[0]] + (if HasUsableImage(solutions[0], providers) then [solutions[0]] else [])
         + UsefulAsCoded(solutions[1..], providers)
  }

  /** What the doc-comment promises: the solutions with a usable image, in input order, once each. */
  function UsefulIntended(solutions: seq<Solution>, providers: set<string>): seq<Solution> {
    if solutions == [] then []
    else (if HasUsableImage(solutions[0], providers) then [solutions[0]] else [])
         + UsefulIntended(solutions[1..], providers)
  }

  lemma {:induction false} UsefulAsCodedAppend(a: seq<Solution>, b: seq<Solution>, providers: set<string>)
    ensures UsefulAsCoded(a + b, providers) == UsefulAsCoded(a, providers) + UsefulAsCoded(b, providers)
    decreases |a|
  {
    if a == [] {
      assert a + b == b;
    } else {
      assert (a + b)[0] == a[0];
      assert (a + b)[1..] == a[1..] + b;
      UsefulAsCodedAppend(a[1..], b, providers);
      var head := [a[0]] + (if HasUsableImage(a[0], providers) then [a[0]] else []);
      calc {
        UsefulAsCoded(a + b, providers);
        head + UsefulAsCoded(a[1..] + b, providers);
        head + (UsefulAsCoded(a[1..], providers) + UsefulAsCoded(b, providers));
        (head + UsefulAsCoded(a[1..], providers)) + UsefulAsCoded(b, providers);
        UsefulAsCoded(a, providers) + UsefulAsCoded(b, providers);
      }
    }
  }

  /**
   * `usefulSolutions(solutions)` against the configured compute services: collects
   * the provider ids, then adds each solution, and adds it again when one of its
   * toolbox images is at a configured provider.
   */
  method UsefulSolutions(solutions: seq<Solution>, computeServiceIds: seq<string>)
    returns (useful: seq<Solution>)
    ensures useful == UsefulAsCoded(solutions, set i | 0 <= i < |computeServiceIds| :: computeServiceIds[i])
  {
    var providers: set<string> := {};
    var n := 0;
    while n < |computeServiceIds|
      invariant 0 <= n <= |computeServiceIds|
      invariant providers == set i | 0 <= i < n :: computeServiceIds[i]
    {
      providers := providers + {computeServiceIds[n]};
      n := n + 1;
    }

    useful := [];
    var k := 0;
    while k < |solutions|
      invariant 0 <= k <= |solutions|
      invariant useful == UsefulAsCoded(solutions[..k], providers)
    {
      var solution := solutions[k];
      useful := useful + [solution];
      ghost var before := useful;
      var images := solution.toolbox.images;
      var j := 0;
      var found := false;
      while j < |images| && !found
        invariant 0 <= j <= |images|
        invariant useful == before + (if found then [solution] else [])
        invariant found ==> HasUsableImage(solution, providers)
        invariant !found ==> forall m :: 0 <= m < j ==> Get(images[m], "provider") !in ProviderOptions(providers)
      {
        var provider := Get(images[j], "provider");
        if provider.Some? && provider.value in providers {
          useful := useful + [solution];
          found := true;
        }
        j := j + 1;
      }
      assert found == HasUsableImage(solution, providers);
      assert solutions[..k + 1] == solutions[..k] + [solution];
      UsefulAsCodedAppend(solutions[..k], [solution], providers);
      assert UsefulAsCoded([solution], providers)
          == [solution] + (if found then [solution] else []) by {
        assert [solution][1..] == [];
      }
      k := k + 1;
    }
    assert solutions[..k] == solutions;
  }

  /** As coded, the filter drops nothing: its output holds exactly the input's solutions. */
  lemma {:induction false} UsefulAsCodedMembership(solutions: seq<Solution>, providers: set<string>, s: Solution)
    ensures s in UsefulAsCoded(solutions, providers) <==> s in solutions
    decreases |solutions|
  {
    if solutions != [] {
      UsefulAsCodedMembership(solutions[1..], providers, s);
      assert solutions == [solutions[0]] + solutions[1..];
    }
  }

  /**
   * As coded, the output keeps the whole input in order, and its length is the
   * input's length plus the number of usable solutions.
   */
  lemma {:induction false} UsefulAsCodedShape(solutions: seq<Solution>, providers: set<string>)
    ensures IsSubsequence(solutions, UsefulAsCoded(solutions, providers))
    ensures |UsefulAsCoded(solutions, providers)| == |solutions| + |UsefulIntended(solutions, providers)|
    decreases |solutions|
  {
    if solutions != [] {
      var s := solutions[0];
      var rest := solutions[1..];
      UsefulAsCodedShape(rest, providers);
      var tail := UsefulAsCoded(rest, providers);
      assert solutions == [s] + rest;
      if HasUsableImage(s, providers) {
        IsSubsequenceCons(s, rest, tail);
        IsSubsequenceCons(s, rest, [s] + tail);
        assert UsefulAsCoded(solutions, providers) == [s] + ([s] + tail);
      } else {
        IsSubsequenceCons(s, rest, tail);
        assert UsefulAsCoded(solutions, providers) == [s] + tail;
      }
    }
  }

  /**
   * The doc-comment's promise fails as coded: a single solution with a usable
   * image comes back twice, so the output is not a subsequence of the input.
   */
  lemma UsefulAsCodedDuplicates(s: Solution, providers: set<string>)
    requires HasUsableImage(s, providers)
    ensures UsefulAsCoded([s], providers) == [s, s]
    ensures !IsSubsequence(UsefulAsCoded([s], providers), [s])
  {
  }

  /** The intended filter keeps the input order and keeps exactly the usable solutions. */
  lemma {:induction false} UsefulIntendedIsFilter(solutions: seq<Solution>, providers: set<string>)
    ensures IsSubsequence(UsefulIntended(solutions, providers), solutions)
    ensures forall s :: s in UsefulIntended(solutions, providers) <==> s in solutions && HasUsableImage(s, providers)
    decreases |solutions|
  {
    if solutions != [] {
      var s := solutions[0];
      var rest := solutions[1..];
      UsefulIntendedIsFilter(rest, providers);
      IsSubsequenceCons(s, UsefulIntended(rest, providers), rest);
      assert solutions == [s] + rest;
      if HasUsableImage(s, providers) {
        assert UsefulIntended(solutions, providers) == [s] + UsefulIntended(rest, providers);
      } else {
        assert UsefulIntended(solutions, providers) == UsefulIntended(rest, providers);
      }
    }
  }

  /** Filtering what was already filtered changes nothing. */
  lemma {:induction false} UsefulIntendedIdempotent(solutions: seq<Solution>, providers: set<string>)
    ensures UsefulIntended(UsefulIntended(solutions, providers), providers) == UsefulIntended(solutions, providers)
    decreases |solutions|
  {
    if solutions != [] {
      var s := solutions[0];
      var rest := solutions[1..];
      UsefulIntendedIdempotent(rest, providers);
      if HasUsableImage(s, providers) {
        var r := UsefulIntended(solutions, providers);
        assert r == [s] + UsefulIntended(rest, providers);
        assert r[0] == s && r[1..] == UsefulIntended(rest, providers);
      } else {
        assert UsefulIntended(solutions, providers) == UsefulIntended(rest, providers);
      }
    }
  }

  /** Filter scenario: with only "aws" configured, an aws solution is kept and a nectar one is not. */
  lemma UsefulScenario(s1: Solution, s2: Solution)
    requires s1.toolbox.images == [map["provider" := "aws", "image_id" := "ami-1"]]
    requires s2.toolbox.images == [map["provider" := "nectar", "image_id" := "n-1"]]
    ensures UsefulIntended([s1, s2], {"aws"}) == [s1]
    ensures UsefulAsCoded([s1, s2], {"aws"}) == [s1, s1, s2]
  {
    assert Get(s1.toolbox.images[0], "provider") == Some("aws");
    assert HasUsableImage(s1, {"aws"});
    assert Get(s2.toolbox.images[0], "provider") == Some("nectar");
    assert Some("nectar") !in ProviderOptions({"aws"});
    assert !HasUsableImage(s2, {"aws"});
    assert [s1, s2][1..] == [s2];
    assert [s2][1..] == [];
    assert UsefulIntended([s2], {"aws"}) == [];
    assert UsefulAsCoded([s2], {"aws"}) == [s2];
  }

  // ---------------------------------------------------------------------------
  // Jobs, snapshots and image grouping
  // ---------------------------------------------------------------------------

  /** What the service reads of a job: the id of the solution it runs, if any. */
  datatype JobView = JobView(solutionId: Option<string>)

  /** `jobManager.getJobById`: the jobs that exist, by id. */
  type JobStore = map<int, JobView>

  /** `getScmSolution(url)`: the solutions that a catalogue fetch returns; a missing URL is a failed fetch (null). */
  type Catalogue = map<string, Solution>

  /** `getJobSolution(job)`: the job's solution from the catalogue, or null. */
  function GetJobSolution(job: Option<JobView>, catalogue: Catalogue): (r: Option<Solution>)
    ensures job.None? ==> r.None?
    ensures job.Some? && job.value.solutionId.None? ==> r.None?
    ensures r.Some? <==> job.Some? && job.value.solutionId.Some? && job.value.solutionId.value in catalogue
    ensures r.Some? ==> r.value == catalogue[job.value.solutionId.value]
  {
    match job
    case None => None
    case Some(j) =>
      match j.solutionId
      case None => None
      case Some(url) => if url in catalogue then Some(catalogue[url]) else None
  }

  /** The (nullable) providers named by a list of images. */
  function ProvidersOf(images: seq<Record>): set<Option<string>> {
    set i | 0 <= i < |images| :: Get(images[i], "provider")
  }

  /** The (nullable) image ids of the images at provider `p`. */
  function ImageIdsAt(images: seq<Record>, p: Option<string>): set<Option<string>> {
    set i | 0 <= i < |images| && Get(images[i], "provider") == p :: Get(images[i], "image_id")
  }

  /** Images grouped by provider: every provider named maps to the ids of its images. */
  function GroupedImages(images: seq<Record>): (m: map<Option<string>, set<Option<string>>>)
    ensures m.Keys == ProvidersOf(images)
  {
    map p | p in ProvidersOf(images) :: ImageIdsAt(images, p)
  }

  /** Grouping one more image adds its provider. */
  lemma ProvidersOfSnoc(images: seq<Record>, img: Record)
    ensures ProvidersOf(images + [img]) == ProvidersOf(images) + {Get(img, "provider")}
  {
    var all := images + [img];
    assert all[|images|] == img;
    forall q | q in ProvidersOf(all) ensures q in ProvidersOf(images) + {Get(img, "provider")} {
      var i :| 0 <= i < |all| && Get(all[i], "provider") == q;
      if i < |images| { assert all[i] == images[i]; }
    }
    forall q | q in ProvidersOf(images) ensures q in ProvidersOf(all) {
      var i :| 0 <= i < |images| && Get(images[i], "provider") == q;
      assert all[i] == images[i];
    }
  }

  /** Grouping one more image adds its id to its own provider's ids only. */
  lemma ImageIdsAtSnoc(images: seq<Record>, img: Record, q: Option<string>)
    ensures ImageIdsAt(images + [img], q) ==
            ImageIdsAt(images, q) + (if Get(img, "provider") == q then {Get(img, "image_id")} else {})
  {
    var all := images + [img];
    assert all[|images|] == img;
    forall v | v in ImageIdsAt(all, q)
      ensures v in ImageIdsAt(images, q) + (if Get(img, "provider") == q then {Get(img, "image_id")} else {})
    {
      var i :| 0 <= i < |all| && Get(all[i], "provider") == q && Get(all[i], "image_id") == v;
      if i < |images| { assert all[i] == images[i]; }
    }
    forall v | v in ImageIdsAt(images, q) ensures v in ImageIdsAt(all, q) {
      var i :| 0 <= i < |images| && Get(images[i], "provider") == q && Get(images[i], "image_id") == v;
      assert all[i] == images[i];
    }
  }

  /** A provider that no image names has no image ids. */
  lemma ImageIdsAtAbsent(images: seq<Record>, q: Option<string>)
    requires q !in ProvidersOf(images)
    ensures ImageIdsAt(images, q) == {}
  {
  }

  /** Grouping one more image adds its id to its provider's set, creating the set if needed. */
  lemma GroupedImagesSnoc(images: seq<Record>, img: Record)
    ensures GroupedImages(images + [img]) ==
      GroupedImages(images)[Get(img, "provider") :=
        (if Get(img, "provider") in GroupedImages(images) then GroupedImages(images)[Get(img, "provider")] else {})
        + {Get(img, "image_id")}]
  {
    var all := images + [img];
    var p := Get(img, "provider");
    var g := GroupedImages(images);
    var g' := GroupedImages(all);
    var rhs := g[p := (if p in g then g[p] else {}) + {Get(img, "image_id")}];
    ProvidersOfSnoc(images, img);
    forall q | q in ProvidersOf(all)
      ensures g'[q] == rhs[q]
    {
      ImageIdsAtSnoc(images, img, q);
      if q == p && p !in g {
        ImageIdsAtAbsent(images, q);
      }
    }
    assert g'.Keys == rhs.Keys;
  }

  /** What `getJobImages(jobId)` returns. */
  function JobImages(jobId: Option<int>, jobs: JobStore, catalogue: Catalogue)
    : Option<map<Option<string>, set<Option<string>>>>
  {
    if jobId.None? then None
    else if jobId.value !in jobs then Some(map[])
    else match GetJobSolution(Some(jobs[jobId.value]), catalogue)
         case None => Some(map[])
         case Some(solution) => Some(GroupedImages(solution.toolbox.images))
  }

  /**
   * `getJobImages(jobId)`: null for a null id; an empty map when the job or its
   * solution cannot be found; otherwise the job's toolbox images grouped by
   * provider. Providers are not checked against the configured ones.
   */
  method GetJobImages(jobId: Option<int>, jobs: JobStore, catalogue: Catalogue)
    returns (images: Option<map<Option<string>, set<Option<string>>>>)
    ensures images == JobImages(jobId, jobs, catalogue)
  {
    if jobId.None? {
      return None;
    }
    var m: map<Option<string>, set<Option<string>>> := map[];
    if jobId.value in jobs {
      var job := jobs[jobId.value];
      var solution := GetJobSolution(Some(job), catalogue);
      if solution.Some? {
        var imgs := solution.value.toolbox.images;
        var i := 0;
        while i < |imgs|
          invariant 0 <= i <= |imgs|
          invariant m == GroupedImages(imgs[..i])
        {
          var img := imgs[i];
          var providerId := Get(img, "provider");
          if providerId !in m {
            m := m[providerId := {}];
          }
          m := m[providerId := m[providerId] + {Get(img, "image_id")}];
          assert imgs[..i + 1] == imgs[..i] + [img];
          GroupedImagesSnoc(imgs[..i], img);
          i := i + 1;
        }
        assert imgs[..i] == imgs;
      }
    }
    images := Some(m);
  }

  /**
   * The grouping holds a (provider, image id) pair exactly when the job's toolbox
   * has an image with that provider and id; nothing is filtered out.
   */
  lemma JobImagesComplete(jobId: int, jobs: JobStore, catalogue: Catalogue, p: Option<string>, v: Option<string>)
    requires jobId in jobs
    requires GetJobSolution(Some(jobs[jobId]), catalogue).Some?
    ensures JobImages(Some(jobId), jobs, catalogue).Some?
    ensures var m := JobImages(Some(jobId), jobs, catalogue).value;
            var imgs := GetJobSolution(Some(jobs[jobId]), catalogue).value.toolbox.images;
            (p in m && v in m[p]) <==>
            exists i :: 0 <= i < |imgs| && Get(imgs[i], "provider") == p && Get(imgs[i], "image_id") == v
  {
  }

  /** Image grouping scenario: two aws images and one nectar image give two providers. */
  lemma JobImagesScenario(imgs: seq<Record>)
    requires imgs == [map["provider" := "aws", "image_id" := "ami-1"],
                      map["provider" := "aws", "image_id" := "ami-2"],
                      map["provider" := "nectar", "image_id" := "n-9"]]
    ensures GroupedImages(imgs).Keys == {Some("aws"), Some("nectar")}
    ensures GroupedImages(imgs)[Some("aws")] == {Some("ami-1"), Some("ami-2")}
    ensures GroupedImages(imgs)[Some("nectar")] == {Some("n-9")}
  {
    var aws, nectar := Some("aws"), Some("nectar");
    assert Get(imgs[0], "provider") == aws && Get(imgs[0], "image_id") == Some("ami-1");
    assert Get(imgs[1], "provider") == aws && Get(imgs[1], "image_id") == Some("ami-2");
    assert Get(imgs[2], "provider") == nectar && Get(imgs[2], "image_id") == Some("n-9");
    assert aws != nectar by { assert "aws"[0] != "nectar"[0]; }
    assert ProvidersOf(imgs) == {aws, nectar} by {
      forall q | q in ProvidersOf(imgs) ensures q in {aws, nectar} {
        var i :| 0 <= i < 3 && Get(imgs[i], "provider") == q;
      }
      assert Get(imgs[0], "provider") in ProvidersOf(imgs);
      assert Get(imgs[2], "provider") in ProvidersOf(imgs);
    }
    assert ImageIdsAt(imgs, aws) == {Some("ami-1"), Some("ami-2")} by {
      forall v | v in ImageIdsAt(imgs, aws) ensures v in {Some("ami-1"), Some("ami-2")} {
        var i :| 0 <= i < 3 && Get(imgs[i], "provider") == aws && Get(imgs[i], "image_id") == v;
      }
      assert Get(imgs[0], "image_id") in ImageIdsAt(imgs, aws);
      assert Get(imgs[1], "image_id") in ImageIdsAt(imgs, aws);
    }
    assert ImageIdsAt(imgs, nectar) == {Some("n-9")} by {
      forall v | v in ImageIdsAt(imgs, nectar) ensures v in {Some("n-9")} {
        var i :| 0 <= i < 3 && Get(imgs[i], "provider") == nectar && Get(imgs[i], "image_id") == v;
      }
      assert Get(imgs[2], "image_id") in ImageIdsAt(imgs, nectar);
    }
  }

  /**
   * `getJobProviders(jobId)`: the key set of `getJobImages(jobId)`, or null when
   * the job id is null.
   */
  method GetJobProviders(jobId: Option<int>, jobs: JobStore, catalogue: Catalogue)
    returns (providers: Option<set<Option<string>>>)
    ensures providers.None? <==> jobId.None?
    ensures providers.Some? ==> providers.value == JobImages(jobId, jobs, catalogue).value.Keys
    ensures providers.Some? && jobId.value in jobs && GetJobSolution(Some(jobs[jobId.value]), catalogue).Some? ==>
            providers.value == ProvidersOf(GetJobSolution(Some(jobs[jobId.value]), catalogue).value.toolbox.images)
  {
    var images := GetJobImages(jobId, jobs, catalogue);
    if images.Some? {
      return Some(images.value.Keys);
    }
    return None;
  }

  /** A stored snapshot: the VM image built for an SCM entry at a compute provider. */
  datatype Snapshot = Snapshot(entryId: string, computeServiceId: string, computeVmId: Option<string>)

  /** `vlScmSnapshotDao.getSnapshotForEntryAndProvider`: the snapshots by (entry, provider). */
  type SnapshotDao = map<(string, string), Snapshot>

  /** The DAO files every snapshot under its own entry and provider. */
  predicate WellKeyed(dao: SnapshotDao) {
    forall key | key in dao :: dao[key].entryId == key.0 && dao[key].computeServiceId == key.1
  }

  /** `getScmEntrySnapshotId(entryId, computeServiceId)`: the snapshot's VM id, or null. */
  function GetScmEntrySnapshotId(entryId: string, computeServiceId: string, dao: SnapshotDao): (vmId: Option<string>)
    ensures (entryId, computeServiceId) !in dao ==> vmId.None?
    ensures (entryId, computeServiceId) in dao ==> vmId == dao[(entryId, computeServiceId)].computeVmId
    ensures vmId.Some? && WellKeyed(dao) ==>
      exists s :: s in dao.Values && s.entryId == entryId && s.computeServiceId == computeServiceId
                  && s.computeVmId == vmId
  {
    if (entryId, computeServiceId) in dao then
      var snapshot := dao[(entryId, computeServiceId)];
      snapshot.computeVmId
    else None
  }

  /** Snapshot scenario: a stored ("sol-1", "aws") snapshot is found; ("sol-1", "gcp") is not. */
  lemma SnapshotScenario(dao: SnapshotDao)
    requires dao == map[("sol-1", "aws") := Snapshot("sol-1", "aws", Some("ami-cached"))]
    ensures GetScmEntrySnapshotId("sol-1", "aws", dao) == Some("ami-cached")
    ensures GetScmEntrySnapshotId("sol-1", "gcp", dao) == None
  {
  }
}
