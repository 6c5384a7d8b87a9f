/** How a path is brought into its final form, and which paths are final. */
module Paths {
  import opened Wrappers
  import opened DirectoryTree

  /** The characters `strip` takes off either end. */
  predicate IsSpace(c: char) {
    || '\t' <= c <= '\r' || 28 as char <= c <= ' ' || c == 0x85 as char || c == 0xA0 as char
    || c == 0x1680 as char || 0x2000 as char <= c <= 0x200A as char
    || c == 0x2028 as char || c == 0x2029 as char || c == 0x202F as char || c == 0x205F as char || c == 0x3000 as char
  }

  function StripLeft(s: string): string {
    if s != [] && IsSpace(s[0]) then StripLeft(s[1..]) else s
  }

  function StripRight(s: string): string {
    if s != [] && IsSpace(s[|s| - 1]) then StripRight(s[..|s| - 1]) else s
  }

  function Strip(s: string): string {
    StripRight(StripLeft(s))
  }

  /** Backslashes turned into slashes. */
  function Slashed(s: string): (r: string)
    ensures |r| == |s| && '\\' !in r
  {
    seq(|s|, i requires 0 <= i < |s| => if s[i] == '\\' then '/' else s[i])
  }

  /** A part that names something: neither nothing, nor here, nor the parent. */
  predicate Names(part: string) {
    part != "" && part != "." && part != ".."
  }

  /** The parts that are left when `.` stays where it is and `..` goes up, but not above the root. */
  function Resolved(kept: seq<string>, parts: seq<string>): seq<string>
    decreases |parts|
  {
    if parts == [] then kept
    else if parts[0] == "" || parts[0] == "." then Resolved(kept, parts[1..])
    else if parts[0] == ".." then Resolved(if kept == [] then [] else kept[..|kept| - 1], parts[1..])
    else Resolved(kept + [parts[0]], parts[1..])
  }

  /** A path in its final form; nothing if it names no file. */
  function Normalize(path: string): Option<Path> {
    var kept := Resolved([], Split(Slashed(Strip(path))));
    if kept == [] then None else Some(Join(kept))
  }

  predicate Final(p: Path) {
    '\\' !in p && forall i :: 0 <= i < |Split(p)| ==> Names(Split(p)[i])
  }

  // ----- splitting -----

  /** Two lists of parts put together: the part at the seam comes from both. */
  function Seamed(xs: seq<string>, ys: seq<string>): seq<string>
    requires xs != [] && ys != []
  {
    if |xs| == 1 then [xs[0] + ys[0]] + ys[1..] else [xs[0]] + Seamed(xs[1..], ys)
  }

  lemma {:induction false} SplitConcat(x: string, y: string)
    ensures Split(x + y) == Seamed(Split(x), Split(y))
  {
    if x == [] {
      assert x + y == y;
      assert [] + Split(y)[0] == Split(y)[0];
    } else {
      SplitConcat(x[1..], y);
      assert (x + y)[0] == x[0] && (x + y)[1..] == x[1..] + y;
      if x[0] == '/' { SeamedAfterSlash(Split(x[1..]), Split(y)); } else { SeamedAfter(x[0], Split(x[1..]), Split(y)); }
    }
  }

  lemma SeamedAfterSlash(xs: seq<string>, ys: seq<string>)
    requires xs != [] && ys != []
    ensures Seamed([[]] + xs, ys) == [[]] + Seamed(xs, ys)
  {
    assert ([[]] + xs)[1..] == xs;
  }

  lemma SeamedAfter(c: char, xs: seq<string>, ys: seq<string>)
    requires xs != [] && ys != []
    ensures var s := Seamed(xs, ys);
      s != [] && Seamed([[c] + xs[0]] + xs[1..], ys) == [[c] + s[0]] + s[1..]
  {
    if |xs| == 1 {
      assert [c] + (xs[0] + ys[0]) == ([c] + xs[0]) + ys[0];
    } else {
      assert ([[c] + xs[0]] + xs[1..])[1..] == xs[1..];
    }
  }

  lemma {:induction false} SeamedAt(xs: seq<string>, ys: seq<string>, i: nat)
    requires xs != [] && ys != []
    ensures |Seamed(xs, ys)| == |xs| + |ys| - 1
    ensures i < |xs| - 1 ==> Seamed(xs, ys)[i] == xs[i]
    ensures i == |xs| - 1 ==> Seamed(xs, ys)[i] == xs[i] + ys[0]
    ensures |xs| <= i < |xs| + |ys| - 1 ==> Seamed(xs, ys)[i] == ys[i - (|xs| - 1)]
  {
    if |xs| > 1 { SeamedAt(xs[1..], ys, if i > 0 then i - 1 else 0); }
  }

  lemma {:induction false} SplitJoin(parts: seq<string>)
    requires parts != [] && forall i :: 0 <= i < |parts| ==> '/' !in parts[i]
    ensures Split(Join(parts)) == parts
  {
    if |parts| == 1 {
      SplitWord(parts[0]);
    } else {
      SplitJoin(parts[1..]);
      SplitAtSlash(parts[0], Join(parts[1..]));
    }
  }

  lemma {:induction false} SplitWord(x: string)
    requires '/' !in x
    ensures Split(x) == [x]
  {
    if x != [] {
      assert x[0] in x;
      SplitWord(x[1..]);
      assert [x[0]] + x[1..] == x;
    }
  }

  lemma {:induction false} PartsHaveItsCharacters(p: Path)
    ensures forall i, c :: 0 <= i < |Split(p)| && c in Split(p)[i] ==> c in p
  {
    if p != [] {
      var rest := Split(p[1..]);
      PartsHaveItsCharacters(p[1..]);
      forall i, c | 0 <= i < |Split(p)| && c in Split(p)[i] ensures c in p {
        if p[0] == '/' {
          assert i > 0 && c in rest[i - 1];
        } else {
          assert c == p[0] || c in rest[i];
        }
        assert c == p[0] || c in p[1..];
      }
    }
  }

  lemma {:induction false} JoinedCharacters(parts: seq<string>, c: char)
    requires parts != [] && c != '/' && forall i :: 0 <= i < |parts| ==> c !in parts[i]
    ensures c !in Join(parts)
  {
    if |parts| > 1 { JoinedCharacters(parts[1..], c); }
  }

  // ----- the final paths are those that normalising makes -----

  ghost predicate Clean(part: string) {
    Names(part) && '/' !in part && '\\' !in part
  }

  lemma {:induction false} ResolvedAreClean(kept: seq<string>, parts: seq<string>)
    requires forall i :: 0 <= i < |kept| ==> Clean(kept[i])
    requires forall i :: 0 <= i < |parts| ==> '/' !in parts[i] && '\\' !in parts[i]
    ensures forall i :: 0 <= i < |Resolved(kept, parts)| ==> Clean(Resolved(kept, parts)[i])
    decreases |parts|
  {
    if parts != [] {
      if parts[0] == "" || parts[0] == "." {
        ResolvedAreClean(kept, parts[1..]);
      } else if parts[0] == ".." {
        ResolvedAreClean(if kept == [] then [] else kept[..|kept| - 1], parts[1..]);
      } else {
        ResolvedAreClean(kept + [parts[0]], parts[1..]);
      }
    }
  }

  lemma NormalizedIsFinal(path: string)
    ensures Normalize(path).Some? ==> Final(Normalize(path).value)
  {
    var raw := Slashed(Strip(path));
    PartsHaveNoSlash(raw);
    PartsHaveItsCharacters(raw);
    ResolvedAreClean([], Split(raw));
    var kept := Resolved([], Split(raw));
    if kept != [] {
      SplitJoin(kept);
      JoinedCharacters(kept, '\\');
    }
  }

  lemma {:induction false} NamesStay(kept: seq<string>, parts: seq<string>)
    requires forall i :: 0 <= i < |parts| ==> Names(parts[i])
    ensures Resolved(kept, parts + [""]) == kept + parts
    decreases |parts|
  {
    assert (parts + [""])[1..] == if parts == [] then [] else parts[1..] + [""];
    if parts != [] {
      assert (parts + [""])[0] == parts[0];
      NamesStay(kept + [parts[0]], parts[1..]);
    }
  }

  lemma {:induction false} SeamedWithNothing(xs: seq<string>, ys: seq<string>)
    requires xs != []
    ensures Seamed(xs, [""] + ys) == xs + ys
  {
    assert ([""] + ys)[1..] == ys;
    if |xs| == 1 { assert xs[0] + "" == xs[0]; } else { SeamedWithNothing(xs[1..], ys); }
  }

  lemma FinalStays(p: Path)
    requires Final(p)
    ensures Normalize("/" + p + "/") == Some(p)
  {
    var text := "/" + p + "/";
    assert Strip(text) == text;
    assert Slashed(text) == text;
    assert text[0] == '/' && text[1..] == p + "/";
    assert Split(text) == [""] + Split(p + "/");
    SplitConcat(p, "/");
    assert Split("/") == ["", ""];
    assert ["", ""] == [""] + [""];
    SeamedWithNothing(Split(p), [""]);
    NamesStay([], Split(p));
    assert Split(text)[1..] == Split(p) + [""];
    assert Resolved([], Split(text)) == Resolved([], Split(p) + [""]);
    assert [] + Split(p) == Split(p);
    JoinSplit(p);
  }

  /** The paths in final form are exactly those that normalising some text gives. */
  lemma FinalExactly(p: Path)
    ensures Final(p) <==> exists text :: Normalize(text) == Some(p)
  {
    if Final(p) { FinalStays(p); }
    if text :| Normalize(text) == Some(p) { NormalizedIsFinal(text); }
  }

  // ----- a path before another -----

  /** Whether a text ending in a colon can stand before a final path does not depend on the path. */
  lemma FinalAfter(x: string, p: Path, q: Path)
    requires Final(p) && Final(q) && (x != "" ==> x[|x| - 1] == ':')
    ensures Final(x + p) <==> Final(x + q)
  {
    if x != "" {
      FinalWithColon(x, p);
      FinalWithColon(x, q);
    } else {
      assert x + p == p && x + q == q;
    }
  }

  lemma {:induction false} LastPartEnds(x: string)
    requires x != "" && x[|x| - 1] != '/'
    ensures var last := Split(x)[|Split(x)| - 1]; last != "" && last[|last| - 1] == x[|x| - 1]
  {
    if |x| > 1 { LastPartEnds(x[1..]); }
  }

  lemma FinalWithColon(x: string, p: Path)
    requires x != "" && x[|x| - 1] == ':' && Final(p)
    ensures Final(x + p) <==> '\\' !in x && forall i :: 0 <= i < |Split(x)| - 1 ==> Names(Split(x)[i])
  {
    SplitConcat(x, p);
    LastPartEnds(x);
    var xs, ys, n := Split(x), Split(p), |Split(x)| - 1;
    assert ':' in xs[n] + ys[0] && ':' !in "." && ':' !in "..";
    assert Names(xs[n] + ys[0]);
    SeamedAt(xs, ys, 0);
    forall i | 0 <= i < |xs| + |ys| - 1 ensures Names(Split(x + p)[i]) <==> i >= n || Names(xs[i]) {
      SeamedAt(xs, ys, i);
    }
    hide Split, Seamed, Names;
  }

  // ----- what normalising leaves out -----

  lemma SplitAtAnySlash(a: string, b: string)
    ensures Split(a + "/" + b) == Split(a) + Split(b)
  {
    var after := "/" + b;
    assert after[0] == '/' && after[1..] == b;
    assert Split(after) == [""] + Split(b);
    assert a + "/" + b == a + after;
    SplitConcat(a, after);
    SeamedWithNothing(Split(a), Split(b));
    hide Split, Seamed;
  }

  lemma {:induction false} ResolvedInTurn(kept: seq<string>, xs: seq<string>, ys: seq<string>)
    ensures Resolved(kept, xs + ys) == Resolved(Resolved(kept, xs), ys)
    decreases |xs|
  {
    if xs == [] {
      assert xs + ys == ys;
    } else {
      assert (xs + ys)[0] == xs[0] && (xs + ys)[1..] == xs[1..] + ys;
      if xs[0] == "" || xs[0] == "." {
        ResolvedInTurn(kept, xs[1..], ys);
      } else if xs[0] == ".." {
        ResolvedInTurn(if kept == [] then [] else kept[..|kept| - 1], xs[1..], ys);
      } else {
        ResolvedInTurn(kept + [xs[0]], xs[1..], ys);
      }
    }
  }

  lemma SlashedParts(a: string, b: string)
    ensures Slashed(a + b) == Slashed(a) + Slashed(b)
  {
  }

  /** The parts that are kept of a path whose beginning and end are given, with more between them. */
  lemma KeptAround(a: string, mid: string, b: string)
    requires '/' !in mid && '\\' !in mid
    ensures var before := Resolved([], Split(Slashed(a)));
      Normalize("/" + a + "/" + mid + "/" + b + "/")
        == Named(Resolved(Resolved(before, [mid]), Split(Slashed(b))))
  {
    var text := "/" + a + "/" + mid + "/" + b + "/";
    var x, y := Slashed(a), Slashed(b);
    assert Strip(text) == text;
    assert Slashed(text) == "" + "/" + (x + "/" + (mid + "/" + (y + "/" + "")));
    SplitAtAnySlash("", x + "/" + (mid + "/" + (y + "/" + "")));
    SplitAtAnySlash(x, mid + "/" + (y + "/" + ""));
    SplitAtAnySlash(mid, y + "/" + "");
    SplitAtAnySlash(y, "");
    SplitWord(mid);
    hide Split, Strip, Slashed, Join;
    ResolvedInTurn([], [""], Split(x) + ([mid] + (Split(y) + [""])));
    ResolvedInTurn([], Split(x), [mid] + (Split(y) + [""]));
    ResolvedInTurn(Resolved([], Split(x)), [mid], Split(y) + [""]);
    ResolvedInTurn(Resolved(Resolved([], Split(x)), [mid]), Split(y), [""]);
    EmptyParts();
    hide Resolved;
  }

  lemma EmptyParts()
    ensures Split("") == [""]
    ensures forall kept: seq<string> :: Resolved(kept, [""]) == kept
  {
    forall kept: seq<string> ensures Resolved(kept, [""]) == kept { assert [""][1..] == []; }
  }

  function Named(kept: seq<string>): Option<Path> {
    if kept == [] then None else Some(Join(kept))
  }

  /** Without anything between them. */
  lemma KeptTogether(a: string, b: string)
    ensures Normalize("/" + a + "/" + b + "/")
         == Named(Resolved(Resolved([], Split(Slashed(a))), Split(Slashed(b))))
  {
    var text := "/" + a + "/" + b + "/";
    var x, y := Slashed(a), Slashed(b);
    assert Strip(text) == text;
    assert Slashed(text) == "" + "/" + (x + "/" + (y + "/" + ""));
    SplitAtAnySlash("", x + "/" + (y + "/" + ""));
    SplitAtAnySlash(x, y + "/" + "");
    SplitAtAnySlash(y, "");
    hide Split, Strip, Slashed, Join;
    ResolvedInTurn([], [""], Split(x) + (Split(y) + [""]));
    ResolvedInTurn([], Split(x), Split(y) + [""]);
    ResolvedInTurn(Resolved([], Split(x)), Split(y), [""]);
    EmptyParts();
    hide Resolved;
  }

  /** An empty part or a dot changes nothing, wherever it stands. */
  lemma HereStays(a: string, here: string, b: string)
    requires here == "" || here == "."
    ensures Normalize("/" + a + "/" + here + "/" + b + "/") == Normalize("/" + a + "/" + b + "/")
  {
    KeptAround(a, here, b);
    KeptTogether(a, b);
    OnePart(Resolved([], Split(Slashed(a))), here);
    hide Normalize, Split, Slashed, Resolved, Named;
  }

  lemma OnePart(kept: seq<string>, part: string)
    ensures Resolved(kept, [part]) ==
      if part == "" || part == "." then kept
      else if part == ".." then if kept == [] then [] else kept[..|kept| - 1]
      else kept + [part]
  {
    assert [part][1..] == [];
  }

  /** A parent undoes the name before it, wherever the two stand. */
  lemma ParentCancels(a: string, x: string, b: string)
    requires Names(x) && '/' !in x && '\\' !in x
    ensures Normalize("/" + (a + "/" + x) + "/" + ".." + "/" + b + "/") == Normalize("/" + a + "/" + b + "/")
  {
    var y := Slashed(a);
    KeptAround(a + "/" + x, "..", b);
    KeptTogether(a, b);
    assert Slashed(a + "/" + x) == y + "/" + x;
    SplitAtAnySlash(y, x);
    SplitWord(x);
    ResolvedInTurn([], Split(y), [x]);
    OnePart(Resolved([], Split(y)), x);
    OnePart(Resolved([], Split(y)) + [x], "..");
    hide Normalize, Split, Slashed, Resolved, Named;
  }

  /** There is nothing above the root. */
  lemma RootIsItsParent(b: string)
    ensures Normalize("/" + "" + "/" + ".." + "/" + b + "/") == Normalize("/" + "" + "/" + b + "/")
  {
    KeptAround("", "..", b);
    KeptTogether("", b);
    EmptyParts();
    assert Slashed("") == "";
    OnePart([], "..");
    hide Normalize, Split, Slashed, Named;
  }

  lemma {:induction false} StripLeftOf(space: string, s: string)
    requires forall c :: c in space ==> IsSpace(c)
    ensures StripLeft(space + s) == StripLeft(s)
  {
    if space == [] {
      assert space + s == s;
    } else {
      assert (space + s)[1..] == space[1..] + s && (space + s)[0] in space;
      StripLeftOf(space[1..], s);
    }
  }

  lemma {:induction false} StripRightOf(s: string, space: string)
    requires forall c :: c in space ==> IsSpace(c)
    ensures StripRight(s + space) == StripRight(s)
  {
    if space == [] {
      assert s + space == s;
    } else {
      var n := |s| + |space| - 1;
      assert (s + space)[n] == space[|space| - 1] && space[|space| - 1] in space;
      assert (s + space)[..n] == s + space[..|space| - 1];
      StripRightOf(s, space[..|space| - 1]);
    }
  }

  lemma {:induction false} StripLeftBefore(s: string, space: string)
    requires forall c :: c in space ==> IsSpace(c)
    ensures StripRight(StripLeft(s + space)) == StripRight(StripLeft(s))
  {
    if s == [] {
      assert s + space == space && space + [] == space;
      StripLeftOf(space, []);
    } else if IsSpace(s[0]) {
      assert (s + space)[1..] == s[1..] + space;
      StripLeftBefore(s[1..], space);
    } else {
      StripRightOf(s, space);
    }
  }

  /** Space around a path changes nothing. */
  lemma SpaceAroundIsDropped(before: string, path: string, after: string)
    requires forall c :: c in before || c in after ==> IsSpace(c)
    ensures Normalize(before + path + after) == Normalize(path)
  {
    assert (before + path) + after == before + (path + after);
    StripLeftOf(before, path + after);
    StripLeftBefore(path, after);
    assert Strip(before + path + after) == Strip(path);
    hide Strip, Slashed, Split, Resolved, Join;
  }

  lemma {:induction false} StripLeftSlashed(s: string)
    ensures StripLeft(Slashed(s)) == Slashed(StripLeft(s))
  {
    if s != [] && IsSpace(s[0]) {
      assert Slashed(s)[0] == s[0] && Slashed(s)[1..] == Slashed(s[1..]);
      StripLeftSlashed(s[1..]);
    }
  }

  lemma {:induction false} StripRightSlashed(s: string)
    ensures StripRight(Slashed(s)) == Slashed(StripRight(s))
  {
    var n := |s| - 1;
    if s != [] && IsSpace(s[n]) {
      assert Slashed(s)[n] == s[n] && Slashed(s)[..n] == Slashed(s[..n]);
      StripRightSlashed(s[..n]);
    }
  }

  /** A backslash is a slash. */
  lemma BackslashesAreSlashes(path: string)
    ensures Normalize(Slashed(path)) == Normalize(path)
  {
    StripLeftSlashed(path);
    StripRightSlashed(StripLeft(path));
    var raw := Strip(path);
    assert Slashed(Slashed(raw)) == Slashed(raw);
    assert Strip(Slashed(path)) == Slashed(raw);
    hide Split, Resolved, Join, StripLeft, StripRight;
  }
}
