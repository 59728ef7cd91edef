/** `Implementation`: one MPI package, the versions of it the package manager
    offers, which of them are installed (or get built), and compiling and
    running the user's program against each of those. */
module Implementations {
  import opened Common
  import opened Strings
  import opened Runner
  import opened Results

  /** The exceptions resolution raises. */
  datatype Error = NoSuchPackage(name: string) | NoVersions(name: string)

  // ---------------------------------------------------------------------
  // `_list_versions`: `sorted(list(set(versions)))`
  // ---------------------------------------------------------------------

  /** Adds `x` to a strictly increasing list unless it is already there. */
  function Insert(s: seq<string>, x: string): (r: seq<string>)
    requires StrictlyIncreasing(s)
    ensures StrictlyIncreasing(r)
    ensures Elems(r) == Elems(s) + {x}
    decreases |s|
  {
    if s == [] then [x]
    else if x == s[0] then s
    else if Less(x, s[0]) then
      assert StrictlyIncreasing([x] + s) by {
        forall j | 0 < j < |s| ensures Less(x, s[j]) {
          LessTransitive(x, s[0], s[j]);
        }
      }
      [x] + s
    else
      LessTrichotomous(x, s[0]);
      var r := Insert(s[1..], x);
      assert StrictlyIncreasing([s[0]] + r) by {
        forall j | 0 <= j < |r| ensures Less(s[0], r[j]) {
          assert r[j] in Elems(r);
        }
      }
      assert Elems(s) == {s[0]} + Elems(s[1..]) by { assert s == [s[0]] + s[1..]; }
      assert Elems([s[0]] + r) == {s[0]} + Elems(r);
      [s[0]] + r
  }

  /** The distinct strings of `xs` in increasing order. */
  function SortedSet(xs: seq<string>): (r: seq<string>)
    ensures StrictlyIncreasing(r)
    ensures Elems(r) == Elems(xs)
  {
    if xs == [] then []
    else
      assert Elems(xs) == Elems(xs[1..]) + {xs[0]} by { assert xs == [xs[0]] + xs[1..]; }
      Insert(SortedSet(xs[1..]), xs[0])
  }

  /** A strictly increasing list is fixed by its set of elements, so the
      order `set` happens to enumerate in cannot show through `sorted`. */
  lemma {:induction false} StrictlyIncreasingUnique(a: seq<string>, b: seq<string>)
    requires StrictlyIncreasing(a) && StrictlyIncreasing(b)
    requires Elems(a) == Elems(b)
    ensures a == b
    decreases |a|
  {
    if b != [] {
      assert b[0] in Elems(b);
    }
    if a != [] {
      assert a[0] in Elems(b);
      assert b != [];
      assert b[0] in Elems(a);
      var i :| 0 <= i < |a| && a[i] == b[0];
      var j :| 0 <= j < |b| && b[j] == a[0];
      if a[0] != b[0] {
        assert i > 0 && j > 0;
        assert Less(a[0], b[0]) && Less(b[0], a[0]);
        LessAsymmetric(a[0], b[0]);
        assert false;
      }
      forall k | 0 < k < |a| ensures a[k] != a[0] {
        LessIrreflexive(a[0]);
      }
      forall k | 0 < k < |b| ensures b[k] != b[0] {
        LessIrreflexive(b[0]);
      }
      assert a == [a[0]] + a[1..] && b == [b[0]] + b[1..];
      assert Elems(a) == {a[0]} + Elems(a[1..]) && a[0] !in Elems(a[1..]);
      assert Elems(b) == {b[0]} + Elems(b[1..]) && b[0] !in Elems(b[1..]);
      StrictlyIncreasingUnique(a[1..], b[1..]);
    }
  }

  /** `_list_versions`, given the version strings the regular expression
      finds in `spack info <name>`. */
  function ListVersions(name: string, extracted: seq<string>): (r: Result<seq<string>, Error>)
    ensures r.Failure? <==> extracted == []
    ensures r.Failure? ==> r.error == NoVersions(name)
    ensures r.Success? ==> StrictlyIncreasing(r.value) && Elems(r.value) == Elems(extracted)
  {
    if extracted == [] then Failure(NoVersions(name)) else Success(SortedSet(extracted))
  }

  /** The result is the only strictly increasing list with the extracted
      versions as its elements: order and repetitions in the input do not
      matter. */
  lemma ListVersionsCanonical(name: string, extracted: seq<string>, sorted: seq<string>)
    requires extracted != []
    requires StrictlyIncreasing(sorted) && Elems(sorted) == Elems(extracted)
    ensures ListVersions(name, extracted) == Success(sorted)
  {
    StrictlyIncreasingUnique(ListVersions(name, extracted).value, sorted);
  }

  /** Versions are compared as strings, not as numbers: "10.1" sorts before
      "9.0.1", and the duplicate is gone. */
  lemma ListVersionsStringOrder()
    ensures ListVersions("openmpi", ["9.0.1", "10.1", "9.0.1"]) == Success(["10.1", "9.0.1"])
  {
    assert Less("10.1", "9.0.1");
    ListVersionsCanonical("openmpi", ["9.0.1", "10.1", "9.0.1"], ["10.1", "9.0.1"]);
  }

  // ---------------------------------------------------------------------
  // `_deploy_all`: which versions become active
  // ---------------------------------------------------------------------

  /** The spec string `name@version`. */
  function Target(name: string, version: string): string
  {
    name + "@" + version
  }

  /** A version is used when `spack find` succeeds for it, or when it fails,
      building is allowed and `spack install` succeeds. */
  predicate Active(pm: PackageManager, name: string, install: bool, v: string)
  {
    pm.find(Target(name, v)) == 0 || (install && pm.install(Target(name, v)) == 0)
  }

  /** The versions of `vs` that the loop of `_deploy_all` appends, in order. */
  function Selected(pm: PackageManager, name: string, install: bool, vs: seq<string>): seq<string>
  {
    if vs == [] then []
    else
      var last := vs[|vs| - 1];
      Selected(pm, name, install, vs[..|vs| - 1]) + (if Active(pm, name, install, last) then [last] else [])
  }

  lemma {:induction false} SelectedMembership(pm: PackageManager, name: string, install: bool, vs: seq<string>, v: string)
    ensures v in Selected(pm, name, install, vs) <==> v in vs && Active(pm, name, install, v)
    decreases |vs|
  {
    if vs != [] {
      SelectedMembership(pm, name, install, vs[..|vs| - 1], v);
      assert vs == vs[..|vs| - 1] + [vs[|vs| - 1]];
    }
  }

  /** A version not found while building is off is never used. */
  lemma SkippedWithoutInstall(pm: PackageManager, name: string, vs: seq<string>, v: string)
    requires pm.find(Target(name, v)) != 0
    ensures v !in Selected(pm, name, false, vs)
  {
    SelectedMembership(pm, name, false, vs, v);
  }

  lemma {:induction false} SelectedIsSubsequence(pm: PackageManager, name: string, install: bool, vs: seq<string>)
    ensures IsSubsequence(Selected(pm, name, install, vs), vs)
    decreases |vs|
  {
    if vs != [] {
      var init := vs[..|vs| - 1];
      var s := Selected(pm, name, install, init);
      SelectedIsSubsequence(pm, name, install, init);
      assert vs[..|vs| - 1] == init;
      if Active(pm, name, install, vs[|vs| - 1]) {
        var r := s + [vs[|vs| - 1]];
        assert r[..|r| - 1] == s;
        assert r[|r| - 1] == vs[|vs| - 1];
      } else {
        assert Selected(pm, name, install, vs) == s;
      }
    }
  }

  lemma {:induction false} SelectedIncreasing(pm: PackageManager, name: string, install: bool, vs: seq<string>)
    requires StrictlyIncreasing(vs)
    ensures StrictlyIncreasing(Selected(pm, name, install, vs))
    decreases |vs|
  {
    if vs != [] {
      var init, last := vs[..|vs| - 1], vs[|vs| - 1];
      var s := Selected(pm, name, install, init);
      SelectedIncreasing(pm, name, install, init);
      forall x | x in s ensures Less(x, last) {
        SelectedMembership(pm, name, install, init, x);
      }
    }
  }

  // ---------------------------------------------------------------------
  // `compile_and_run`: one record per active version
  // ---------------------------------------------------------------------

  /** One call of `run_with_spack_load`: the package and the command. */
  datatype Invocation = Invocation(pkg: string, cmd: seq<string>)

  function CompileCommand(file: string, exe: string): seq<string>
  {
    ["mpicc", file, "-o", exe]
  }

  /** The record for version `v`, compiled into the temporary file `exe`. */
  function Attempt(pm: PackageManager, sh: Shell, name: string, file: string, timeout: int, v: string, exe: string): (r: Record)
    ensures r.version == v
    ensures var c := RunWithSpackLoad(pm, sh, Target(name, v), CompileCommand(file, exe), timeout);
            c.ret != 0 ==> r == Record(v, Missing, c.ret)
    ensures var c := RunWithSpackLoad(pm, sh, Target(name, v), CompileCommand(file, exe), timeout);
            var e := RunWithSpackLoad(pm, sh, Target(name, v), [exe], timeout);
            c.ret == 0 ==> r == Record(v, OutOf(e.out), e.ret)
    ensures r.out == Missing <==> r.ret != 0
    ensures !r.out.Structured?
  {
    var compiled := RunWithSpackLoad(pm, sh, Target(name, v), CompileCommand(file, exe), timeout);
    if compiled.ret != 0 then Record(v, Missing, compiled.ret)
    else
      var executed := RunWithSpackLoad(pm, sh, Target(name, v), [exe], timeout);
      Record(v, OutOf(executed.out), executed.ret)
  }

  /** The runner calls made for version `v`: the compilation, then the
      execution only if the compilation returned 0. */
  function AttemptCalls(pm: PackageManager, sh: Shell, name: string, file: string, timeout: int, v: string, exe: string): seq<Invocation>
  {
    var compile := Invocation(Target(name, v), CompileCommand(file, exe));
    if RunWithSpackLoad(pm, sh, Target(name, v), CompileCommand(file, exe), timeout).ret != 0 then [compile]
    else [compile, Invocation(Target(name, v), [exe])]
  }

  /** The program is run for a version exactly when it compiled, and a
      version whose compilation or run failed or timed out has no output. */
  lemma ExecutedIffCompiled(pm: PackageManager, sh: Shell, name: string, file: string, timeout: int, v: string, exe: string)
    ensures var c := RunWithSpackLoad(pm, sh, Target(name, v), CompileCommand(file, exe), timeout);
            Invocation(Target(name, v), [exe]) in AttemptCalls(pm, sh, name, file, timeout, v, exe) <==> c.ret == 0
    ensures Attempt(pm, sh, name, file, timeout, v, exe).ret != 0 ==> !Truthy(Attempt(pm, sh, name, file, timeout, v, exe).out)
  {
    assert CompileCommand(file, exe) != [exe];
  }

  class Implementation {
    const name: string
    const install: bool
    var runningVersions: seq<string>

    /** The field set-up of `__init__`; the resolution it goes on to do is
        `Resolve`. */
    constructor (name: string, install: bool)
      ensures this.name == name && this.install == install
      ensures runningVersions == []
    {
      this.name := name;
      this.install := install;
      runningVersions := [];
    }

    /** `_deploy_all`: lists the versions, then appends to
        `runningVersions` each one that is found or, when building is
        allowed, installs successfully. */
    method DeployAll(pm: PackageManager) returns (o: Outcome<Error>)
      modifies this
      ensures match ListVersions(name, pm.info(name))
              case Failure(e) => o == Fail(e) && runningVersions == old(runningVersions)
              case Success(vs) => o == Pass && runningVersions == old(runningVersions) + Selected(pm, name, install, vs)
    {
      var listed := ListVersions(name, pm.info(name));
      if listed.Failure? {
        return Fail(listed.error);
      }
      var versions := listed.value;
      for i := 0 to |versions|
        invariant runningVersions == old(runningVersions) + Selected(pm, name, install, versions[..i])
      {
        var v := versions[i];
        var target := Target(name, v);
        assert versions[..i + 1][..i] == versions[..i];
        if pm.find(target) != 0 {
          if install {
            if pm.install(target) != 0 {
              // the build failed: the version is ignored
            } else {
              runningVersions := runningVersions + [v];
            }
          }
        } else {
          runningVersions := runningVersions + [v];
        }
      }
      assert versions[..|versions|] == versions;
      o := Pass;
    }

    /** The rest of `__init__`: `_check_exist`, which raises when
        `spack spec <name>` fails, then `_deploy_all`. */
    method Resolve(pm: PackageManager) returns (o: Outcome<Error>)
      modifies this
      ensures pm.spec(name) != 0 ==> o == Fail(NoSuchPackage(name)) && runningVersions == old(runningVersions)
      ensures pm.spec(name) == 0 ==>
                match ListVersions(name, pm.info(name))
                case Failure(e) => o == Fail(e) && runningVersions == old(runningVersions)
                case Success(vs) => o == Pass && runningVersions == old(runningVersions) + Selected(pm, name, install, vs)
    {
      if pm.spec(name) != 0 {
        return Fail(NoSuchPackage(name));
      }
      o := DeployAll(pm);
    }

    /** `compile_and_run(file, timeout)`. `tempExe(i)` is the name of the
        temporary executable created for the `i`-th version. `calls` is a
        trace convention: the method appends to it, next to each call of
        `RunWithSpackLoad`, the invocation that call makes, so it records
        which runner calls were made for each version. */
    method CompileAndRun(pm: PackageManager, sh: Shell, file: string, timeout: int, tempExe: nat -> string)
      returns (records: seq<Record>, ghost calls: seq<seq<Invocation>>)
      ensures |records| == |runningVersions| && |calls| == |runningVersions|
      ensures forall i :: 0 <= i < |records| ==>
                records[i] == Attempt(pm, sh, name, file, timeout, runningVersions[i], tempExe(i))
      ensures forall i :: 0 <= i < |calls| ==>
                calls[i] == AttemptCalls(pm, sh, name, file, timeout, runningVersions[i], tempExe(i))
    {
      records, calls := [], [];
      for i := 0 to |runningVersions|
        invariant |records| == i && |calls| == i
        invariant forall k :: 0 <= k < i ==>
                    records[k] == Attempt(pm, sh, name, file, timeout, runningVersions[k], tempExe(k))
        invariant forall k :: 0 <= k < i ==>
                    calls[k] == AttemptCalls(pm, sh, name, file, timeout, runningVersions[k], tempExe(k))
      {
        var v := runningVersions[i];
        var target := Target(name, v);
        var exe := tempExe(i);
        var compiled := RunWithSpackLoad(pm, sh, target, CompileCommand(file, exe), timeout);
        if compiled.ret != 0 {
          records := records + [Record(v, Missing, compiled.ret)];
          calls := calls + [[Invocation(target, CompileCommand(file, exe))]];
          continue;
        }
        var executed := RunWithSpackLoad(pm, sh, target, [exe], timeout);
        records := records + [Record(v, OutOf(executed.out), executed.ret)];
        calls := calls + [[Invocation(target, CompileCommand(file, exe)), Invocation(target, [exe])]];
      }
    }
  }
}
