/** config.GetPath and the parts of Go's path package it relies on. */
module Paths {
  import opened Strings

  /** The environment variables the agent reads; an unset variable is empty. */
  datatype Env = Env(
    snapDataOverride: string,     // OVERRIDE_SNAP_DATA
    snapData: string,             // SNAP_DATA
    snapCommonOverride: string,   // OVERRIDE_SNAP_COMMON
    snapCommon: string)           // SNAP_COMMON

  /** A path component that names a directory entry of its own. */
  predicate Ordinary(c: string) {
    c != "" && c != "." && c != ".." && '/' !in c
  }

  /** Lexical processing of one component by path.Clean. */
  function Push(stack: seq<string>, c: string, rooted: bool): seq<string> {
    if c == "" || c == "." then stack
    else if c != ".." then stack + [c]
    else if |stack| > 0 && stack[|stack| - 1] != ".." then stack[..|stack| - 1]
    else if rooted then stack
    else stack + [".."]
  }

  function Walk(stack: seq<string>, comps: seq<string>, rooted: bool): seq<string>
    decreases |comps|
  {
    if comps == [] then stack else Walk(Push(stack, comps[0], rooted), comps[1..], rooted)
  }

  function Render(stack: seq<string>, rooted: bool): string {
    if stack == [] then (if rooted then "/" else ".")
    else (if rooted then "/" else "") + Join(stack, '/')
  }

  /** path.Clean */
  function Clean(p: string): string {
    if p == "" then "."
    else Render(Walk([], Split(p, '/'), p[0] == '/'), p[0] == '/')
  }

  function NonEmpty(elems: seq<string>): (r: seq<string>) {
    if elems == [] then []
    else (if elems[0] == "" then [] else [elems[0]]) + NonEmpty(elems[1..])
  }

  /** path.Join: empty elements are ignored, the rest is joined and cleaned. */
  function JoinPath(elems: seq<string>): string {
    var ne := NonEmpty(elems);
    if ne == [] then "" else Clean(Join(ne, '/'))
  }

  /** config.GetPath */
  function GetPath(env: Env, filename: string): string {
    if env.snapDataOverride != "" then JoinPath([env.snapDataOverride, "/current", filename])
    else if env.snapData != "" then JoinPath([env.snapData, "../current", filename])
    else filename
  }

  const DeviceDataFile := "device-data.bin"

  /** Where storeDeviceData writes. */
  function DataPath(env: Env): string {
    JoinPath([if env.snapCommonOverride != "" then env.snapCommonOverride else env.snapCommon, DeviceDataFile])
  }

  lemma {:induction false} WalkConcat(stack: seq<string>, a: seq<string>, b: seq<string>, rooted: bool)
    ensures Walk(stack, a + b, rooted) == Walk(Walk(stack, a, rooted), b, rooted)
    decreases |a|
  {
    if a == [] {
      assert a + b == b;
    } else {
      assert (a + b)[1..] == a[1..] + b;
      WalkConcat(Push(stack, a[0], rooted), a[1..], b, rooted);
    }
  }

  /** Joining three non-empty elements is cleaning them with slashes between. */
  lemma JoinThree(a: string, b: string, c: string)
    requires a != "" && b != "" && c != ""
    ensures JoinPath([a, b, c]) == Clean(a + ['/'] + (b + ['/'] + c))
  {
    assert [a, b, c][1..] == [b, c] && [b, c][1..] == [c];
    assert NonEmpty([c]) == [c] && NonEmpty([b, c]) == [b, c] && NonEmpty([a, b, c]) == [a, b, c];
    assert Join([b, c], '/') == b + ['/'] + c;
    assert a + ['/'] + (b + ['/'] + c) == Join([a, b, c], '/');
  }

  /** Cleaning a directory followed by slash-free components walks on from where the directory leads. */
  lemma CleanBelow(dir: string, tail: seq<string>, rooted: bool)
    requires |tail| >= 1 && forall i :: 0 <= i < |tail| ==> '/' !in tail[i]
    requires rooted == ((dir + ['/'])[0] == '/')
    ensures Clean(dir + ['/'] + Join(tail, '/'))
         == Render(Walk(Walk([], Split(dir, '/'), rooted), tail, rooted), rooted)
  {
    var p := dir + ['/'] + Join(tail, '/');
    SplitConcat(dir, Join(tail, '/'), '/');
    SplitOfJoin(tail, '/');
    WalkConcat([], Split(dir, '/'), tail, rooted);
    assert p[0] == (dir + ['/'])[0];
  }

  lemma WalkOne(stack: seq<string>, c: string, rooted: bool)
    ensures Walk(stack, [c], rooted) == Push(stack, c, rooted)
  {
    assert [c][1..] == [];
  }

  lemma JoinTwo(a: string, b: string)
    ensures Join([a, b], '/') == a + ['/'] + b
  {
    assert [a, b][1..] == [b];
  }

  lemma UpAndCurrent(f: string)
    ensures Join(["..", "current", f], '/') == "../current" + ['/'] + f
  {
    JoinTwo("current", f);
    assert ["..", "current", f][1..] == ["current", f];
    assert "../current" + ['/'] + f == ".." + ['/'] + ("current" + ['/'] + f);
  }

  /** GetPath below SNAP_DATA: the components "..", "current" and the file name are walked in turn. */
  lemma GetPathWalk(env: Env, f: string, rooted: bool)
    requires env.snapDataOverride == "" && env.snapData != "" && f != "" && '/' !in f
    requires rooted == (env.snapData[0] == '/')
    ensures GetPath(env, f)
         == Render(Walk(Push(Walk([], Split(env.snapData, '/'), rooted), "..", rooted), ["current", f], rooted), rooted)
  {
    var tail := ["..", "current", f];
    JoinThree(env.snapData, "../current", f);
    UpAndCurrent(f);
    CleanBelow(env.snapData, tail, rooted);
    assert tail[0] == ".." && tail[1..] == ["current", f];
  }

  /** Walking SNAP_DATA of the form dir/r is walking dir and then pushing r. */
  lemma WalkRevision(dir: string, r: string, rooted: bool)
    requires '/' !in r
    ensures Walk([], Split(dir + ['/'] + r, '/'), rooted) == Push(Walk([], Split(dir, '/'), rooted), r, rooted)
  {
    SplitConcat(dir, r, '/');
    SplitSingle(r, '/');
    WalkConcat([], Split(dir, '/'), [r], rooted);
    WalkOne(Walk([], Split(dir, '/'), rooted), r, rooted);
  }

  /** dir/current/f, cleaned: where every revision should look for f. */
  function SharedPath(dir: string, f: string): string {
    Clean(dir + ['/'] + Join(["current", f], '/'))
  }

  /** The file that GetPath names lies in dir/current, whatever ordinary revision
      component r ends SNAP_DATA: files stored by one snap revision are found by the next. */
  lemma RevisionIndependent(env: Env, dir: string, r: string, f: string)
    requires env.snapDataOverride == "" && env.snapData == dir + ['/'] + r
    requires Ordinary(r) && f != "" && '/' !in f
    ensures GetPath(env, f) == SharedPath(dir, f)
  {
    var rooted := env.snapData[0] == '/';
    assert rooted == ((dir + ['/'])[0] == '/');
    var stack := Walk([], Split(dir, '/'), rooted);
    GetPathWalk(env, f, rooted);
    WalkRevision(dir, r, rooted);
    CleanBelow(dir, ["current", f], rooted);
    assert (stack + [r])[..|stack|] == stack;
  }

  lemma WalkTwo(stack: seq<string>, a: string, b: string, rooted: bool)
    requires Ordinary(a) && Ordinary(b)
    ensures Walk(stack, [a, b], rooted) == stack + [a, b]
  {
    assert [a, b][1..] == [b];
    WalkOne(stack + [a], b, rooted);
    assert stack + [a] + [b] == stack + [a, b];
  }

  /** What a walk leaves: parts that are not empty and contain no slash. */
  predicate Steps(stack: seq<string>) {
    forall i :: 0 <= i < |stack| ==> stack[i] != "" && '/' !in stack[i]
  }

  lemma {:induction false} WalkSteps(stack: seq<string>, comps: seq<string>, rooted: bool)
    requires Steps(stack) && forall i :: 0 <= i < |comps| ==> '/' !in comps[i]
    ensures Steps(Walk(stack, comps, rooted))
    decreases |comps|
  {
    if comps != [] {
      assert '/' !in comps[0];
      WalkSteps(Push(stack, comps[0], rooted), comps[1..], rooted);
    }
  }

  lemma JoinStarts(a: seq<string>)
    requires a != [] && Steps(a)
    ensures Join(a, '/') != "" && Join(a, '/')[0] != '/'
  {
    assert Join(a, '/')[0] == a[0][0];
    assert a[0][0] in a[0];
  }

  /** Different walks are written differently. */
  lemma RenderInjective(a: seq<string>, b: seq<string>, x: bool, y: bool)
    requires a != [] && b != [] && Steps(a) && Steps(b)
    ensures Render(a, x) == Render(b, y) <==> x == y && a == b
  {
    SplitOfJoin(a, '/');
    SplitOfJoin(b, '/');
    JoinStarts(a);
    JoinStarts(b);
    var s, t := Join(a, '/'), Join(b, '/');
    assert ("/" + s)[1..] == s && ("/" + t)[1..] == t;
    assert "" + s == s && "" + t == t;
  }

  lemma BelowSame(a: seq<string>, b: seq<string>, tail: seq<string>, x: bool, y: bool)
    requires Steps(a) && Steps(b) && Steps(tail) && tail != []
    ensures Render(a + tail, x) == Render(b + tail, y) <==> x == y && a == b
  {
    RenderInjective(a + tail, b + tail, x, y);
    if a + tail == b + tail {
      assert |a| == |b|;
      assert (a + tail)[..|a|] == a && (b + tail)[..|b|] == b;
    }
  }

  // ---------------------------------------------------------------- which environments share files

  /** A directory, cleaned: whether it is absolute, and its components. */
  datatype Dir = Dir(rooted: bool, stack: seq<string>)

  function Cleaned(p: string): Dir
    requires p != ""
  {
    Dir(p[0] == '/', Walk([], Split(p, '/'), p[0] == '/'))
  }

  function Parent(d: Dir): Dir {
    d.(stack := Push(d.stack, "..", d.rooted))
  }

  /** The directory whose subdirectory current holds the files: the override, or the parent of SNAP_DATA, or
      none, when the file name is used as it is. */
  datatype Home = Nowhere | In(dir: Dir)

  function HomeOf(env: Env): Home {
    if env.snapDataOverride != "" then In(Cleaned(env.snapDataOverride))
    else if env.snapData != "" then In(Parent(Cleaned(env.snapData)))
    else Nowhere
  }

  lemma HomeSteps(env: Env)
    requires HomeOf(env).In?
    ensures Steps(HomeOf(env).dir.stack)
  {
    var p := if env.snapDataOverride != "" then env.snapDataOverride else env.snapData;
    WalkSteps([], Split(p, '/'), p[0] == '/');
  }

  lemma OverrideWalk(env: Env, f: string)
    requires env.snapDataOverride != "" && Ordinary(f)
    ensures var d := Cleaned(env.snapDataOverride);
            GetPath(env, f) == Render(d.stack + ["current", f], d.rooted)
  {
    var p := env.snapDataOverride;
    var d := Cleaned(p);
    var tail := ["", "current", f];
    JoinThree(p, "/current", f);
    EmptyAndCurrent(f);
    CleanBelow(p, tail, d.rooted);
    assert tail[0] == "" && tail[1..] == ["current", f];
    WalkTwo(d.stack, "current", f, d.rooted);
  }

  lemma EmptyAndCurrent(f: string)
    ensures Join(["", "current", f], '/') == "/current" + ['/'] + f
  {
    JoinTwo("current", f);
    assert ["", "current", f][1..] == ["current", f];
    assert "/current" + ['/'] + f == "" + ['/'] + ("current" + ['/'] + f);
  }

  /** Where a file is looked for: in the subdirectory current of the home, or under its bare name. */
  lemma GetPathHome(env: Env, f: string)
    requires Ordinary(f)
    ensures match HomeOf(env)
            case Nowhere => GetPath(env, f) == f
            case In(d) => GetPath(env, f) == Render(d.stack + ["current", f], d.rooted)
  {
    if env.snapDataOverride != "" {
      OverrideWalk(env, f);
    } else if env.snapData != "" {
      var d := Cleaned(env.snapData);
      GetPathWalk(env, f, d.rooted);
      WalkTwo(Parent(d).stack, "current", f, d.rooted);
    }
  }

  lemma BareElsewhere(d: Dir, f: string)
    requires Steps(d.stack) && Ordinary(f)
    ensures Render(d.stack + ["current", f], d.rooted) != f
  {
    RenderInjective(d.stack + ["current", f], [f], d.rooted, false);
    assert "" + f == f && Render([f], false) == f;
    assert |d.stack + ["current", f]| != |[f]|;
  }

  /** Two environments, whatever they set, share a file if and only if they have the same home: files stored
      under one revision are found by the next exactly when the parents of their SNAP_DATA are the same. */
  lemma SharedFilesExact(a: Env, b: Env, f: string)
    requires Ordinary(f)
    ensures GetPath(a, f) == GetPath(b, f) <==> HomeOf(a) == HomeOf(b)
  {
    var x, y := HomeOf(a), HomeOf(b);
    GetPathHome(a, f);
    GetPathHome(b, f);
    if x.In? {
      HomeSteps(a);
      BareElsewhere(x.dir, f);
    }
    if y.In? {
      HomeSteps(b);
      BareElsewhere(y.dir, f);
    }
    if x.In? && y.In? {
      BelowSame(x.dir.stack, y.dir.stack, ["current", f], x.dir.rooted, y.dir.rooted);
    }
  }

  /** SNAP_DATA with a trailing slash, or "/.", behind it names the same directory, and leads to the same files. */
  lemma TrailingSlashIgnored(env: Env, p: string, e: string, f: string)
    requires env.snapDataOverride == "" && env.snapData == p + ['/'] + e
    requires p != "" && (e == "" || e == ".") && Ordinary(f)
    ensures HomeOf(env) == HomeOf(env.(snapData := p))
    ensures GetPath(env, f) == GetPath(env.(snapData := p), f)
  {
    WalkRevision(p, e, p[0] == '/');
    SharedFilesExact(env, env.(snapData := p), f);
  }

  /** What a last component does to a path: it names an entry, or nothing, or leads up. */
  datatype Kind = Entry | Same | Up

  function KindOf(r: string): Kind {
    if r == "" || r == "." then Same else if r == ".." then Up else Entry
  }

  lemma HomeBelow(env: Env, dir: string, r: string)
    requires env.snapDataOverride == "" && env.snapData == dir + ['/'] + r && '/' !in r
    ensures var rooted := env.snapData[0] == '/';
            var stack := Walk([], Split(dir, '/'), rooted);
            HomeOf(env) == In(Dir(rooted, match KindOf(r)
                                          case Entry => stack
                                          case Same => Push(stack, "..", rooted)
                                          case Up => Push(Push(stack, "..", rooted), "..", rooted)))
  {
    var rooted := env.snapData[0] == '/';
    var stack := Walk([], Split(dir, '/'), rooted);
    WalkRevision(dir, r, rooted);
    if KindOf(r).Entry? {
      assert (stack + [r])[..|stack|] == stack;
    }
  }

  /** One last component of SNAP_DATA can take the place of another, below every directory and for every file,
      if and only if they are of one kind; so every revision can take the place of every other. */
  lemma RevisionIndependenceExact(r: string, r': string)
    requires '/' !in r && '/' !in r'
    ensures (forall env: Env, dir: string, f: string ::
               env.snapDataOverride == "" && env.snapData == dir + ['/'] + r && Ordinary(f)
               ==> GetPath(env.(snapData := dir + ['/'] + r'), f) == GetPath(env, f))
        <==> KindOf(r) == KindOf(r')
  {
    if KindOf(r) == KindOf(r') {
      forall env: Env, dir: string, f: string |
        env.snapDataOverride == "" && env.snapData == dir + ['/'] + r && Ordinary(f)
        ensures GetPath(env.(snapData := dir + ['/'] + r'), f) == GetPath(env, f)
      {
        var other := env.(snapData := dir + ['/'] + r');
        assert other.snapData[0] == (dir + ['/'])[0] == env.snapData[0];
        HomeBelow(env, dir, r);
        HomeBelow(other, dir, r');
        SharedFilesExact(other, env, f);
      }
    } else {
      KindsDiffer(r, r');
    }
  }

  lemma KindsDiffer(r: string, r': string)
    requires '/' !in r && '/' !in r' && KindOf(r) != KindOf(r')
    ensures var env := Env("", "a" + ['/'] + r, "", "");
            Ordinary("params") && GetPath(env.(snapData := "a" + ['/'] + r'), "params") != GetPath(env, "params")
  {
    var env := Env("", "a" + ['/'] + r, "", "");
    var other := env.(snapData := "a" + ['/'] + r');
    SplitSingle("a", '/');
    WalkOne([], "a", false);
    HomeBelow(env, "a", r);
    HomeBelow(other, "a", r');
    SharedFilesExact(other, env, "params");
  }

  // ---------------------------------------------------------------- the paths, written out

  predicate AllOrdinary(parts: seq<string>) {
    forall i :: 0 <= i < |parts| ==> Ordinary(parts[i])
  }

  /** dir is /a/b/c, or a/b/c, with these components; the root is written as the empty string. */
  predicate Spells(dir: string, rooted: bool, parts: seq<string>) {
    && AllOrdinary(parts) && (rooted || parts != [])
    && dir == if parts == [] then "" else if rooted then ['/'] + Join(parts, '/') else Join(parts, '/')
  }

  lemma {:induction false} WalkOrdinary(stack: seq<string>, parts: seq<string>, rooted: bool)
    requires AllOrdinary(parts)
    ensures Walk(stack, parts, rooted) == stack + parts
    decreases |parts|
  {
    if parts == [] {
      assert stack + parts == stack;
    } else {
      WalkOrdinary(stack + [parts[0]], parts[1..], rooted);
      assert stack + [parts[0]] + parts[1..] == stack + parts;
    }
  }

  lemma SpelledWalk(dir: string, rooted: bool, parts: seq<string>)
    requires Spells(dir, rooted, parts)
    ensures (dir + ['/'])[0] == '/' <==> rooted
    ensures Walk([], Split(dir, '/'), rooted) == parts
  {
    if parts != [] {
      SplitOfJoin(parts, '/');
      JoinStarts(parts);
      WalkOrdinary([], parts, rooted);
      if rooted {
        assert dir[1..] == Join(parts, '/');
        assert Split(dir, '/') == [""] + parts;
        assert ([""] + parts)[1..] == parts;
      }
    }
  }

  lemma {:induction false} JoinConcat(a: seq<string>, b: seq<string>)
    requires a != [] && b != []
    ensures Join(a + b, '/') == Join(a, '/') + ['/'] + Join(b, '/')
  {
    if |a| == 1 {
      assert (a + b)[1..] == b;
    } else {
      assert (a + b)[1..] == a[1..] + b;
      JoinConcat(a[1..], b);
    }
  }

  /** Going down from a directory that is spelled out appends to its name. */
  lemma RenderBelow(dir: string, rooted: bool, parts: seq<string>, tail: seq<string>)
    requires Spells(dir, rooted, parts) && tail != []
    ensures Render(parts + tail, rooted) == dir + ['/'] + Join(tail, '/')
  {
    if parts == [] {
      assert parts + tail == tail;
      assert "/" + Join(tail, '/') == "" + ['/'] + Join(tail, '/');
    } else {
      JoinConcat(parts, tail);
      assert "/" + (Join(parts, '/') + ['/'] + Join(tail, '/')) == ['/'] + Join(parts, '/') + ['/'] + Join(tail, '/');
      assert "" + Join(parts + tail, '/') == Join(parts + tail, '/');
    }
  }

  /** A path that is spelled out is clean. */
  lemma SpelledClean(p: string, rooted: bool, parts: seq<string>)
    requires Spells(p, rooted, parts) && parts != []
    ensures Clean(p) == p
  {
    SpelledWalk(p, rooted, parts);
    JoinStarts(parts);
    assert p != "" && p[0] == (p + ['/'])[0];
    assert "/" + Join(parts, '/') == ['/'] + Join(parts, '/') && "" + Join(parts, '/') == Join(parts, '/');
  }

  function Ups(n: nat): (r: seq<string>)
    ensures |r| == n && forall i :: 0 <= i < n ==> r[i] == ".."
  {
    seq(n, _ => "..")
  }

  /** Steps up are lost at the root and kept where there is nothing to go up from. */
  lemma {:induction false} WalkUps(n: nat, rooted: bool)
    ensures Walk([], Ups(n), rooted) == if rooted then [] else Ups(n)
  {
    if n > 0 {
      WalkUps(n - 1, rooted);
      assert Ups(n) == Ups(n - 1) + [".."];
      WalkConcat([], Ups(n - 1), [".."], rooted);
      WalkOne(Walk([], Ups(n - 1), rooted), "..", rooted);
    }
  }

  /** A path that starts with steps up is clean, if it is relative; if it is absolute they are dropped. */
  lemma UpsClean(n: nat, parts: seq<string>)
    requires AllOrdinary(parts) && parts != []
    ensures Clean(Join(Ups(n) + parts, '/')) == Join(Ups(n) + parts, '/')
    ensures Clean(['/'] + Join(Ups(n) + parts, '/')) == ['/'] + Join(parts, '/')
  {
    var all := Ups(n) + parts;
    var p := Join(all, '/');
    SplitOfJoin(all, '/');
    JoinStarts(all);
    WalkUps(n, false);
    WalkConcat([], Ups(n), parts, false);
    WalkOrdinary(Ups(n), parts, false);
    assert "" + p == p;
    UpsFromRoot(n, parts, p);
  }

  lemma UpsFromRoot(n: nat, parts: seq<string>, p: string)
    requires AllOrdinary(parts) && parts != [] && Split(p, '/') == Ups(n) + parts
    ensures Clean(['/'] + p) == ['/'] + Join(parts, '/')
  {
    var all := Ups(n) + parts;
    assert (['/'] + p)[1..] == p;
    assert Split(['/'] + p, '/') == [""] + all && ([""] + all)[1..] == all;
    WalkUps(n, true);
    WalkConcat([], Ups(n), parts, true);
    WalkOrdinary([], parts, true);
    assert [] + parts == parts;
    assert "/" + Join(parts, '/') == ['/'] + Join(parts, '/');
  }

  /** What is left of nothing, or of a path that leads nowhere, and of no elements at all. */
  lemma CleanEdges(c: string)
    requires c == "" || c == "."
    ensures Clean(c) == "." && Clean(['/'] + c) == "/"
    ensures JoinPath([]) == "" && JoinPath([c]) == c
  {
    SplitSingle(c, '/');
    WalkOne([], c, false);
    assert (['/'] + c)[1..] == c;
    assert Split(['/'] + c, '/') == [""] + [c] && ([""] + [c])[1..] == [c];
    WalkOne([], c, true);
    assert [c][1..] == [];
    assert Join([c], '/') == c;
  }

  lemma CurrentSpelled(dir: string, f: string)
    ensures dir + ['/'] + Join(["current", f], '/') == dir + "/current/" + f
  {
    JoinTwo("current", f);
    assert dir + ['/'] + ("current" + ['/'] + f) == dir + "/current/" + f;
  }

  /** With SNAP_DATA dir/r, where dir is spelled out and r a revision, the file is dir/current/f. */
  lemma GetPathSpelled(env: Env, dir: string, rooted: bool, parts: seq<string>, r: string, f: string)
    requires env.snapDataOverride == "" && env.snapData == dir + ['/'] + r
    requires Spells(dir, rooted, parts) && Ordinary(r) && Ordinary(f)
    ensures GetPath(env, f) == dir + "/current/" + f
  {
    SpelledWalk(dir, rooted, parts);
    assert env.snapData[0] == (dir + ['/'])[0];
    HomeBelow(env, dir, r);
    GetPathHome(env, f);
    RenderBelow(dir, rooted, parts, ["current", f]);
    CurrentSpelled(dir, f);
  }

  /** With an override, spelled out, the file is in its own subdirectory current, whatever SNAP_DATA is; with neither
      variable set the file name is the path. */
  lemma OverrideSpelled(env: Env, rooted: bool, parts: seq<string>, f: string)
    requires Ordinary(f)
    ensures var dir := env.snapDataOverride;
            dir != "" && Spells(dir, rooted, parts) ==> GetPath(env, f) == dir + "/current/" + f
    ensures env.snapDataOverride == env.snapData == "" ==> GetPath(env, f) == f
  {
    var dir := env.snapDataOverride;
    if dir != "" && Spells(dir, rooted, parts) {
      SpelledWalk(dir, rooted, parts);
      assert dir[0] == (dir + ['/'])[0];
      GetPathHome(env, f);
      RenderBelow(dir, rooted, parts, ["current", f]);
      CurrentSpelled(dir, f);
    }
  }

  /** Device data goes to the override of SNAP_COMMON if set, else to SNAP_COMMON, else to the working directory. */
  lemma DataPathSpelled(env: Env, rooted: bool, parts: seq<string>, f: string)
    requires f == DeviceDataFile
    ensures var dir := if env.snapCommonOverride != "" then env.snapCommonOverride else env.snapCommon;
            && (dir != "" && Spells(dir, rooted, parts) ==> DataPath(env) == dir + ['/'] + f)
            && (dir == "" ==> DataPath(env) == f)
  {
    var dir := if env.snapCommonOverride != "" then env.snapCommonOverride else env.snapCommon;
    assert DataPath(env) == JoinPath([dir, f]);
    if dir == "" || Spells(dir, rooted, parts) {
      JoinPathSpelled(dir, rooted, parts, f);
    }
  }

  lemma JoinPathSpelled(dir: string, rooted: bool, parts: seq<string>, f: string)
    requires (dir == "" || Spells(dir, rooted, parts)) && Ordinary(f)
    ensures JoinPath([dir, f]) == if dir == "" then f else dir + ['/'] + f
  {
    assert [dir, f][1..] == [f];
    assert NonEmpty([f]) == [f];
    if dir == "" {
      CleanSingle(f);
    } else {
      assert NonEmpty([dir, f]) == [dir, f];
      JoinTwo(dir, f);
      JoinBelow(dir, rooted, parts, f);
      SpelledClean(dir + ['/'] + f, rooted, parts + [f]);
    }
  }

  lemma JoinBelow(dir: string, rooted: bool, parts: seq<string>, f: string)
    requires Spells(dir, rooted, parts) && Ordinary(f)
    ensures Spells(dir + ['/'] + f, rooted, parts + [f])
  {
    if parts == [] {
      assert parts + [f] == [f];
    } else {
      JoinConcat(parts, [f]);
      assert ['/'] + (Join(parts, '/') + ['/'] + f) == ['/'] + Join(parts, '/') + ['/'] + f;
    }
  }

  lemma {:induction false} JoinEndsWithLast(parts: seq<string>)
    requires |parts| >= 1
    ensures HasSuffix(Join(parts, '/'), parts[|parts| - 1])
  {
    if |parts| > 1 {
      JoinEndsWithLast(parts[1..]);
      var tail := Join(parts[1..], '/');
      var s := Join(parts, '/');
      assert s == parts[0] + "/" + tail;
      var k := |s| - |parts[|parts| - 1]|;
      assert s[k..] == tail[k - |parts[0]| - 1..];
    }
  }

  /** A cleaned path whose last component is ordinary ends with it. */
  lemma CleanEndsWith(dir: string, f: string)
    requires Ordinary(f)
    ensures HasSuffix(Clean(dir + ['/'] + f), f)
  {
    var rooted := (dir + ['/'])[0] == '/';
    CleanBelow(dir, [f], rooted);
    var stack := Walk([], Split(dir, '/'), rooted);
    WalkOne(stack, f, rooted);
    JoinEndsWithLast(stack + [f]);
    var body := Join(stack + [f], '/');
    if rooted {
      assert ("/" + body)[|body| + 1 - |f|..] == body[|body| - |f|..];
    } else {
      assert "" + body == body;
    }
  }

  lemma CleanSingle(f: string)
    requires Ordinary(f)
    ensures Clean(f) == f
  {
    SplitSingle(f, '/');
    WalkOne([], f, false);
    assert f[0] in f;
    assert "" + f == f;
  }

  lemma GetPathEndsWith(env: Env, f: string)
    requires Ordinary(f)
    ensures HasSuffix(GetPath(env, f), f)
  {
    if env.snapDataOverride != "" {
      var dir := env.snapDataOverride + ['/'] + "/current";
      JoinThree(env.snapDataOverride, "/current", f);
      assert dir + ['/'] + f == env.snapDataOverride + ['/'] + ("/current" + ['/'] + f);
      CleanEndsWith(dir, f);
    } else if env.snapData != "" {
      var dir := env.snapData + ['/'] + "../current";
      JoinThree(env.snapData, "../current", f);
      assert dir + ['/'] + f == env.snapData + ['/'] + ("../current" + ['/'] + f);
      CleanEndsWith(dir, f);
    }
  }

  lemma DataPathEndsWith(env: Env)
    ensures HasSuffix(DataPath(env), DeviceDataFile)
  {
    var base := if env.snapCommonOverride != "" then env.snapCommonOverride else env.snapCommon;
    var f := DeviceDataFile;
    assert [base, f][1..] == [f];
    assert NonEmpty([f]) == [f];
    if base == "" {
      assert NonEmpty([base, f]) == [f];
      CleanSingle(f);
    } else {
      assert NonEmpty([base, f]) == [base, f];
      JoinTwo(base, f);
      CleanEndsWith(base, f);
    }
  }

  lemma LastOfSuffix(s: string, suffix: string)
    requires HasSuffix(s, suffix) && suffix != ""
    ensures s != "" && s[|s| - 1] == suffix[|suffix| - 1]
  {
    assert s[|s| - |suffix|..][|suffix| - 1] == s[|s| - 1];
  }

  lemma FilesDistinct(env: Env)
    ensures GetPath(env, "params") != GetPath(env, ".secret")
    ensures GetPath(env, "params") != DataPath(env)
    ensures GetPath(env, ".secret") != DataPath(env)
    ensures GetPath(env, ".secret") != ""
  {
    GetPathEndsWith(env, "params");
    GetPathEndsWith(env, ".secret");
    DataPathEndsWith(env);
    LastOfSuffix(GetPath(env, "params"), "params");
    LastOfSuffix(GetPath(env, ".secret"), ".secret");
    LastOfSuffix(DataPath(env), DeviceDataFile);
  }

  datatype Layout = Layout(params: string, secret: string, data: string)

  /** Where the agent keeps its files: three different paths, whatever the environment. */
  type Places = p: Layout |
    p.params != p.secret && p.params != p.data && p.secret != p.data && p.secret != ""
    witness Layout("params", ".secret", DeviceDataFile)

  function PlacesOf(env: Env): Places {
    FilesDistinct(env);
    Layout(GetPath(env, "params"), GetPath(env, ".secret"), DataPath(env))
  }

  /** Two snap revisions of one installation use the same files. */
  lemma RevisionsShareFiles(env: Env, next: Env, dir: string, r: string, r': string)
    requires env.snapDataOverride == "" && env.snapData == dir + ['/'] + r && Ordinary(r)
    requires next == env.(snapData := dir + ['/'] + r') && Ordinary(r')
    ensures PlacesOf(next) == PlacesOf(env)
  {
    RevisionIndependent(env, dir, r, "params");
    RevisionIndependent(next, dir, r', "params");
    RevisionIndependent(env, dir, r, ".secret");
    RevisionIndependent(next, dir, r', ".secret");
  }
}
