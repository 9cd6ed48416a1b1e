/**
 * The lexical part of Go's `path/filepath` that absPathify relies on:
 * IsAbs, Clean, Join of two elements and Abs, on a system whose path
 * separator is `sep`. Clean works on the separator-delimited elements of
 * a path: it drops empty and "." elements, lets ".." cancel the element
 * before it (a ".." at the root is dropped, a leading ".." of a relative
 * path is kept) and joins what is left.
 */
module FilePath {
  import opened Wrappers
  import opened Strings

  /** The separators Go uses: '\' on Windows, '/' everywhere else. */
  type Separator = c: char | c == '/' || c == '\\' witness '/'

  /** filepath.IsAbs, read as "rooted at the separator". */
  predicate IsAbs(p: string, sep: Separator)
  {
    |p| > 0 && p[0] == sep
  }

  /** Clean's treatment of one element, given the elements kept so far. */
  function Step(kept: seq<string>, e: string, rooted: bool): seq<string>
  {
    if e == "" || e == "." then kept
    else if e == ".." then
      if |kept| > 0 && kept[|kept| - 1] != ".." then kept[..|kept| - 1]
      else if rooted then kept
      else kept + [".."]
    else kept + [e]
  }

  /** Clean's left-to-right pass over the elements of a path. */
  function Resolve(kept: seq<string>, elems: seq<string>, rooted: bool): seq<string>
    decreases |elems|
  {
    if elems == [] then kept else Resolve(Step(kept, elems[0], rooted), elems[1..], rooted)
  }

  /**
   * The element lists Clean produces: every element is a real name or "..",
   * holds no separator, the ".." elements form a leading run, and a rooted
   * path has none.
   */
  predicate Canonical(elems: seq<string>, rooted: bool, sep: Separator)
  {
    && (forall i :: 0 <= i < |elems| ==> elems[i] != "" && elems[i] != "." && sep !in elems[i])
    && (rooted ==> forall i :: 0 <= i < |elems| ==> elems[i] != "..")
    && (forall i, j :: 0 <= i < j < |elems| && elems[j] == ".." ==> elems[i] == "..")
  }

  lemma StepCanonical(kept: seq<string>, e: string, rooted: bool, sep: Separator)
    requires Canonical(kept, rooted, sep) && sep !in e
    ensures Canonical(Step(kept, e, rooted), rooted, sep)
  {
    if e == ".." && !(|kept| > 0 && kept[|kept| - 1] != "..") && !rooted {
      assert forall i :: 0 <= i < |kept| ==> kept[i] == "..";
    }
  }

  /** Clean's pass only ever produces canonical element lists. */
  lemma {:induction false} ResolveCanonical(kept: seq<string>, elems: seq<string>, rooted: bool, sep: Separator)
    requires Canonical(kept, rooted, sep)
    requires forall i :: 0 <= i < |elems| ==> sep !in elems[i]
    ensures Canonical(Resolve(kept, elems, rooted), rooted, sep)
    decreases |elems|
  {
    if elems != [] {
      StepCanonical(kept, elems[0], rooted, sep);
      ResolveCanonical(Step(kept, elems[0], rooted), elems[1..], rooted, sep);
    }
  }

  /** A canonical element list passes through Clean's pass unchanged. */
  lemma {:induction false} ResolveCanonicalUnchanged(kept: seq<string>, elems: seq<string>, rooted: bool, sep: Separator)
    requires Canonical(kept + elems, rooted, sep)
    ensures Resolve(kept, elems, rooted) == kept + elems
    decreases |elems|
  {
    if elems != [] {
      var all := kept + elems;
      assert all[|kept|] == elems[0];
      if elems[0] == ".." && |kept| > 0 {
        assert all[|kept| - 1] == kept[|kept| - 1];
      }
      assert Step(kept, elems[0], rooted) == kept + [elems[0]];
      assert kept + [elems[0]] + elems[1..] == all;
      ResolveCanonicalUnchanged(kept + [elems[0]], elems[1..], rooted, sep);
    }
  }

  /** A join of separator-free pieces whose first piece is not empty starts with that piece. */
  lemma JoinHead(elems: seq<string>, sep: Separator)
    requires |elems| > 0 && elems[0] != ""
    ensures Join(elems, sep) != "" && Join(elems, sep)[0] == elems[0][0]
  {
  }

  /**
   * filepath.Clean: the shortest lexically equivalent path. It is never
   * empty, and it is rooted exactly when its input is.
   */
  function Clean(p: string, sep: Separator): (r: string)
    ensures r != ""
    ensures IsAbs(r, sep) <==> IsAbs(p, sep)
  {
    if p == "" then "."
    else
      var rooted := p[0] == sep;
      var elems := Resolve([], Split(p, sep), rooted);
      ResolveCanonical([], Split(p, sep), rooted, sep);
      if rooted then [sep] + Join(elems, sep)
      else if elems == [] then "."
      else
        JoinHead(elems, sep);
        Join(elems, sep)
  }

  /** A rooted path built from canonical elements is already clean. */
  lemma CleanRootedFixed(elems: seq<string>, sep: Separator)
    requires Canonical(elems, true, sep)
    ensures Clean([sep] + Join(elems, sep), sep) == [sep] + Join(elems, sep)
  {
    var r := [sep] + Join(elems, sep);
    var pieces := if elems == [] then ["", ""] else [""] + elems;
    assert Join(pieces, sep) == r;
    SplitJoin(pieces, sep);
    if elems != [] {
      assert pieces[0] == "" && pieces[1..] == elems;
      ResolveCanonicalUnchanged([], elems, true, sep);
      assert Resolve([], pieces, true) == Resolve([], elems, true);
    } else {
      assert Resolve([], pieces, true) == Resolve([], [""], true) == [];
    }
    assert Resolve([], Split(r, sep), r[0] == sep) == elems;
  }

  /** A relative path built from canonical elements is already clean. */
  lemma CleanRelativeFixed(elems: seq<string>, sep: Separator)
    requires Canonical(elems, false, sep) && elems != []
    ensures Clean(Join(elems, sep), sep) == Join(elems, sep)
  {
    var r := Join(elems, sep);
    SplitJoin(elems, sep);
    JoinHead(elems, sep);
    ResolveCanonicalUnchanged([], elems, false, sep);
    assert Resolve([], Split(r, sep), r[0] == sep) == elems;
  }

  /** "." is clean. */
  lemma CleanDot(sep: Separator)
    ensures Clean(".", sep) == "."
  {
    assert Split(".", sep) == ["."] by {
      assert Index(".", sep) == -1;
    }
    assert Resolve([], ["."], false) == [];
  }

  /** Cleaning a cleaned path changes nothing. */
  lemma CleanIdempotent(p: string, sep: Separator)
    ensures Clean(Clean(p, sep), sep) == Clean(p, sep)
  {
    if p == "" || (p[0] != sep && Resolve([], Split(p, sep), false) == []) {
      assert Clean(p, sep) == ".";
      CleanDot(sep);
    } else {
      var rooted := p[0] == sep;
      var elems := Resolve([], Split(p, sep), rooted);
      ResolveCanonical([], Split(p, sep), rooted, sep);
      if rooted {
        assert Clean(p, sep) == [sep] + Join(elems, sep);
        CleanRootedFixed(elems, sep);
      } else {
        assert Clean(p, sep) == Join(elems, sep);
        CleanRelativeFixed(elems, sep);
      }
    }
  }

  /** How Clean treats a rooted path: the separator, then the resolved elements joined. */
  lemma CleanRooted(r: string, sep: Separator)
    requires IsAbs(r, sep)
    ensures Clean(r, sep) == [sep] + Join(Resolve([], Split(r, sep), true), sep)
  {
  }

  /** A rooted directory path of two plain names and a trailing separator cleans to the two names. */
  lemma CleanTwoNames(x: string, y: string, sep: Separator)
    requires x != "" && x != "." && x != ".." && sep !in x
    requires y != "" && y != "." && y != ".." && sep !in y
    ensures Clean([sep] + x + [sep] + y + [sep], sep) == [sep] + x + [sep] + y
  {
    var r := [sep] + x + [sep] + y + [sep];
    var pieces, elems := ["", x, y, ""], [x, y];
    assert Clean(r, sep) == [sep] + Join(Resolve([], Split(r, sep), true), sep) by {
      CleanRooted(r, sep);
    }
    assert Split(r, sep) == pieces by {
      JoinTwoNames(x, y, sep);
    }
    assert Resolve([], pieces, true) == elems by {
      ResolveTwoNames(x, y);
    }
    assert Join(elems, sep) == x + [sep] + y by {
      assert elems[1..] == [y];
    }
  }

  lemma JoinTwoNames(x: string, y: string, sep: Separator)
    requires sep !in x && sep !in y
    ensures Join(["", x, y, ""], sep) == [sep] + x + [sep] + y + [sep]
    ensures Split([sep] + x + [sep] + y + [sep], sep) == ["", x, y, ""]
  {
    JoinFourPieces(x, y, sep);
    var pieces := ["", x, y, ""];
    assert forall i :: 0 <= i < |pieces| ==> sep !in pieces[i];
    SplitJoin(pieces, sep);
  }

  lemma JoinFourPieces(x: string, y: string, sep: Separator)
    ensures Join(["", x, y, ""], sep) == [sep] + x + [sep] + y + [sep]
  {
    var tail := y + [sep];
    assert Join([y, ""], sep) == tail by {
      assert [y, ""][1..] == [""];
    }
    assert Join([x, y, ""], sep) == x + [sep] + tail by {
      assert [x, y, ""][1..] == [y, ""];
    }
    assert Join(["", x, y, ""], sep) == "" + [sep] + (x + [sep] + tail) by {
      assert ["", x, y, ""][1..] == [x, y, ""];
    }
  }

  lemma ResolveTwoNames(x: string, y: string)
    requires x != "" && x != "." && x != ".."
    requires y != "" && y != "." && y != ".."
    ensures Resolve([], ["", x, y, ""], true) == [x, y]
  {
    assert ["", x, y, ""][1..] == [x, y, ""] && [x, y, ""][1..] == [y, ""] && [y, ""][1..] == [""];
    assert Step([], "", true) == [] && Step([], x, true) == [x];
    assert Step([x], y, true) == [x, y] && Step([x, y], "", true) == [x, y];
    assert Resolve([x, y], [""], true) == [x, y];
    assert Resolve([x], [y, ""], true) == Resolve([x, y], [""], true);
    assert Resolve([], [x, y, ""], true) == Resolve([x], [y, ""], true);
    assert Resolve([], ["", x, y, ""], true) == Resolve([], [x, y, ""], true);
  }

  /** filepath.Join of two elements: empty elements are ignored, the result is cleaned. */
  function JoinPath(dir: string, name: string, sep: Separator): string
  {
    if dir != "" then Clean(dir + [sep] + name, sep)
    else if name != "" then Clean(name, sep)
    else ""
  }

  /** A working directory as os.Getwd reports it: unavailable, or a rooted path. */
  predicate WorkingDir(cwd: Option<string>, sep: Separator)
  {
    cwd.Some? ==> IsAbs(cwd.value, sep)
  }

  /** filepath.Abs, with the working directory passed in (None when os.Getwd fails). */
  function Abs(p: string, sep: Separator, cwd: Option<string>): Option<string>
  {
    if IsAbs(p, sep) then Some(Clean(p, sep))
    else match cwd
      case None => None
      case Some(wd) => Some(JoinPath(wd, p, sep))
  }

  /**
   * Abs fails only when the path is relative and there is no working
   * directory; otherwise it yields a rooted, cleaned path, and a relative
   * path is taken relative to the working directory.
   */
  lemma AbsResult(p: string, sep: Separator, cwd: Option<string>)
    requires WorkingDir(cwd, sep)
    ensures Abs(p, sep, cwd).None? <==> !IsAbs(p, sep) && cwd.None?
    ensures Abs(p, sep, cwd).Some? ==>
      var a := Abs(p, sep, cwd).value; IsAbs(a, sep) && Clean(a, sep) == a
    ensures !IsAbs(p, sep) && cwd.Some? ==> Abs(p, sep, cwd) == Some(Clean(cwd.value + [sep] + p, sep))
  {
    if IsAbs(p, sep) {
      CleanIdempotent(p, sep);
    } else if cwd.Some? {
      CleanIdempotent(cwd.value + [sep] + p, sep);
    }
  }
}
