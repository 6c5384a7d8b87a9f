/** Which texts a script leaves as they are, and what their `${name}` marks are replaced by. */
module Marks {
  import opened Wrappers
  import opened Values

  /** The text has no mark in it. */
  predicate NoMarks(s: string) {
    forall i | 0 <= i < |s| :: MarkAt(s[i..]).None?
  }

  /** A text is its own value, whatever the variables, exactly when no mark is in it. */
  lemma {:induction false} TextStaysExactly(py: Runtime, s: string, heap: Heap)
    ensures Interpolate(py, s, map[], heap).Gives?
    ensures |Interpolate(py, s, map[], heap).value| <= |s|
    ensures Interpolate(py, s, map[], heap).value == s <==> NoMarks(s)
    decreases |s|
  {
    hide MarkAt;
    if s != [] {
      assert s[0..] == s;
      if MarkAt(s).Some? {
        MarkIsLong(s);
        TextStaysExactly(py, s[|MarkAt(s).value| + 3..], heap);
      } else {
        TextStaysExactly(py, s[1..], heap);
        NoMarksFromFront(s);
        assert [s[0]] + s[1..] == s;
      }
    }
  }

  lemma MarkIsLong(s: string)
    requires MarkAt(s).Some?
    ensures |MarkAt(s).value| + 3 <= |s|
  {
  }

  lemma NoMarksFromFront(s: string)
    requires s != [] && MarkAt(s).None?
    ensures NoMarks(s) <==> NoMarks(s[1..])
  {
    hide MarkAt;
    assert s[0..] == s;
    forall i | 0 <= i < |s| - 1 ensures s[1..][i..] == s[i + 1..] {}
    if NoMarks(s[1..]) {
      forall i | 0 <= i < |s| ensures MarkAt(s[i..]).None? {
        if i > 0 { assert s[i..] == s[1..][i - 1..] && MarkAt(s[1..][i - 1..]).None?; }
      }
    }
    if NoMarks(s) {
      forall i | 0 <= i < |s[1..]| ensures MarkAt(s[1..][i..]).None? { assert s[1..][i..] == s[i + 1..]; }
    }
  }

  /** And then no variables change it. */
  lemma {:induction false} TextStays(py: Runtime, s: string, scope: Scope, heap: Heap)
    requires NoMarks(s)
    ensures Interpolate(py, s, scope, heap) == Gives(s)
  {
    if s != [] {
      assert s[0..] == s && MarkAt(s[0..]).None?;
      NoMarksFromFront(s);
      TextStays(py, s[1..], scope, heap);
      assert [s[0]] + s[1..] == s;
    }
    hide MarkAt;
  }

  lemma {:induction false} WordLengthOf(name: string, rest: string)
    requires (forall i :: 0 <= i < |name| ==> IsWordPart(name[i])) && (rest == "" || !IsWordPart(rest[0]))
    ensures WordLength(name + rest) == |name|
  {
    if name == [] {
      assert name + rest == rest;
    } else {
      assert (name + rest)[1..] == name[1..] + rest;
      WordLengthOf(name[1..], rest);
    }
  }

  lemma MarkFound(name: string, rest: string)
    requires name != "" && forall i :: 0 <= i < |name| ==> IsWordPart(name[i])
    ensures MarkAt("${" + name + "}" + rest) == Some(name)
    ensures ("${" + name + "}" + rest)[|name| + 3..] == rest
  {
    var s := "${" + name + "}" + rest;
    assert s[2..] == name + ("}" + rest);
    WordLengthOf(name, "}" + rest);
    assert s[2..|name| + 2] == name;
  }

  /** A mark is replaced by the text of its variable. */
  lemma MarkReplaced(py: Runtime, name: string, rest: string, scope: Scope, heap: Heap)
    requires name != "" && forall i :: 0 <= i < |name| ==> IsWordPart(name[i])
    requires name in scope && ToText(py, scope[name], heap).Gives? && Interpolate(py, rest, scope, heap).Gives?
    ensures Interpolate(py, "${" + name + "}" + rest, scope, heap)
         == Gives(ToText(py, scope[name], heap).value + Interpolate(py, rest, scope, heap).value)
  {
    MarkFound(name, rest);
    hide MarkAt, ToText;
  }

  /** A name is only as long as the word characters that a text begins with. */
  lemma {:induction false} WordLengthWithin(a: string, rest: string)
    requires rest != "" && !IsWordPart(rest[0])
    ensures WordLength(a + rest) == WordLength(a)
  {
    if a == [] {
      assert a + rest == rest;
    } else {
      assert (a + rest)[0] == a[0] && (a + rest)[1..] == a[1..] + rest;
      WordLengthWithin(a[1..], rest);
    }
  }

  /** No mark reaches over a dollar sign. */
  lemma NoMarkOver(a: string, rest: string)
    requires a != "" && MarkAt(a).None? && rest != "" && rest[0] == '$'
    ensures MarkAt(a + rest).None?
  {
    var s := a + rest;
    if |a| >= 2 && a[0] == '$' && a[1] == '{' {
      assert s[2..] == a[2..] + rest;
      WordLengthWithin(a[2..], rest);
    }
  }

  lemma OneCharacter(py: Runtime, s: string, scope: Scope, heap: Heap)
    requires s != "" && MarkAt(s).None? && Interpolate(py, s[1..], scope, heap).Gives?
    ensures Interpolate(py, s, scope, heap) == Gives([s[0]] + Interpolate(py, s[1..], scope, heap).value)
  {
    hide MarkAt;
  }

  /** Text before a mark stays. */
  lemma {:induction false} TextBefore(py: Runtime, a: string, rest: string, scope: Scope, heap: Heap)
    requires NoMarks(a) && rest != "" && rest[0] == '$' && Interpolate(py, rest, scope, heap).Gives?
    ensures Interpolate(py, a + rest, scope, heap) == Gives(a + Interpolate(py, rest, scope, heap).value)
    decreases |a|
  {
    hide Interpolate, MarkAt;
    if a == "" {
      assert a + rest == rest;
      var more := Interpolate(py, rest, scope, heap).value;
      assert a + more == more;
    } else {
      assert a[0..] == a && MarkAt(a[0..]).None?;
      NoMarkOver(a, rest);
      NoMarksFromFront(a);
      TextBefore(py, a[1..], rest, scope, heap);
      var s := a + rest;
      assert s[0] == a[0] && s[1..] == a[1..] + rest && [a[0]] + a[1..] == a;
      OneCharacter(py, s, scope, heap);
      assert [a[0]] + (a[1..] + Interpolate(py, rest, scope, heap).value)
          == ([a[0]] + a[1..]) + Interpolate(py, rest, scope, heap).value;
    }
  }

  /** A mark of no variable leaves nothing. */
  lemma MarkDropped(py: Runtime, name: string, rest: string, scope: Scope, heap: Heap)
    requires name != "" && forall i :: 0 <= i < |name| ==> IsWordPart(name[i])
    requires name !in scope && Interpolate(py, rest, scope, heap).Gives?
    ensures Interpolate(py, "${" + name + "}" + rest, scope, heap) == Interpolate(py, rest, scope, heap)
  {
    MarkFound(name, rest);
    var s := "${" + name + "}" + rest;
    assert s != "" && MarkAt(s) == Some(name) && s[|name| + 3..] == rest;
    OneMissing(py, s, name, scope, heap);
    hide Interpolate, MarkAt;
  }

  lemma OneMissing(py: Runtime, s: string, name: string, scope: Scope, heap: Heap)
    requires MarkAt(s) == Some(name) && name !in scope && |name| + 3 <= |s|
    requires Interpolate(py, s[|name| + 3..], scope, heap).Gives?
    ensures Interpolate(py, s, scope, heap) == Interpolate(py, s[|name| + 3..], scope, heap)
  {
    hide MarkAt, ToText;
    var more := Interpolate(py, s[|name| + 3..], scope, heap);
    assert "" + more.value == more.value;
  }
}
