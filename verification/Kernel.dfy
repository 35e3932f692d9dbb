/** Whether a host owes a reboot: its kernel and kernel parameters, as booted and as they are on disk. */
module Kernel {

  /** The characters that separate words. */
  predicate IsSpace(c: char) {
    var n := c as int;
    || 9 <= n <= 13 || n == 32 || n == 0x85 || n == 0xA0 || n == 0x1680 || 0x2000 <= n <= 0x200A
    || n == 0x2028 || n == 0x2029 || n == 0x202F || n == 0x205F || n == 0x3000
  }

  predicate Blank(s: string) { forall k :: 0 <= k < |s| ==> IsSpace(s[k]) }

  function TrimLeft(s: string): string {
    if s != "" && IsSpace(s[0]) then TrimLeft(s[1..]) else s
  }

  function TrimRight(s: string): string {
    if s != "" && IsSpace(s[|s| - 1]) then TrimRight(s[..|s| - 1]) else s
  }

  function Trim(s: string): string { TrimRight(TrimLeft(s)) }

  /** `t` is what is left of `s` without the space around it. */
  ghost predicate Trimmed(s: string, t: string, a: string, b: string) {
    && s == a + t + b && Blank(a) && Blank(b)
    && (t != "" ==> !IsSpace(t[0]) && !IsSpace(t[|t| - 1]))
  }

  lemma {:induction false} TrimLeftMeans(s: string) returns (a: string)
    ensures s == a + TrimLeft(s) && Blank(a) && (TrimLeft(s) != "" ==> !IsSpace(TrimLeft(s)[0]))
  {
    if s != "" && IsSpace(s[0]) {
      a := TrimLeftMeans(s[1..]);
      a := [s[0]] + a;
      assert s == [s[0]] + s[1..];
    } else {
      a := "";
    }
  }

  lemma {:induction false} TrimRightMeans(s: string) returns (b: string)
    ensures s == TrimRight(s) + b && Blank(b)
    ensures TrimRight(s) != "" ==> !IsSpace(TrimRight(s)[|TrimRight(s)| - 1]) && TrimRight(s)[0] == s[0]
  {
    if s != "" && IsSpace(s[|s| - 1]) {
      b := TrimRightMeans(s[..|s| - 1]);
      b := b + [s[|s| - 1]];
      assert s == s[..|s| - 1] + [s[|s| - 1]];
    } else {
      b := "";
    }
  }

  lemma TrimMeans(s: string) returns (a: string, b: string)
    ensures Trimmed(s, Trim(s), a, b)
  {
    a := TrimLeftMeans(s);
    b := TrimRightMeans(TrimLeft(s));
    assert s == a + Trim(s) + b;
  }

  /** The characters before the first space. */
  function WordEnd(s: string): (n: nat)
    ensures n <= |s| && (forall k :: 0 <= k < n ==> !IsSpace(s[k])) && (n < |s| ==> IsSpace(s[n]))
  {
    if s == "" || IsSpace(s[0]) then 0 else 1 + WordEnd(s[1..])
  }

  function Fields(s: string): seq<string>
    decreases |s|
  {
    if s == "" then []
    else if IsSpace(s[0]) then Fields(s[1..])
    else [s[..WordEnd(s)]] + Fields(s[WordEnd(s)..])
  }

  function ParamSet(s: string): set<string> { set w | w in Fields(s) }

  /** A maximal run of characters other than spaces. */
  ghost predicate Word(s: string, i: nat, j: nat) {
    && i < j <= |s| && (forall k :: i <= k < j ==> !IsSpace(s[k]))
    && (i == 0 || IsSpace(s[i - 1])) && (j == |s| || IsSpace(s[j]))
  }

  ghost predicate HasWord(s: string, w: string) { exists i: nat, j: nat :: Word(s, i, j) && w == s[i..j] }

  /** The words of what follows the first `n` characters, when no word straddles them. */
  lemma LaterWord(s: string, n: nat, w: string)
    requires n <= |s| && (n == 0 || n == |s| || IsSpace(s[n - 1]) || IsSpace(s[n]))
    ensures HasWord(s[n..], w) ==> HasWord(s, w)
  {
    var t := s[n..];
    if HasWord(t, w) {
      var i: nat, j: nat :| Word(t, i, j) && w == t[i..j];
      assert forall k :: 0 <= k < |t| ==> t[k] == s[n + k];
      assert forall k :: n + i <= k < n + j ==> s[k] == t[k - n];
      assert s[n + i..n + j] == t[i..j];
      assert !IsSpace(t[i]);
      assert Word(s, n + i, n + j);
    }
  }

  lemma EarlierWord(s: string, n: nat, i: nat, j: nat)
    requires n <= i && Word(s, i, j)
    ensures HasWord(s[n..], s[i..j])
  {
    var t := s[n..];
    assert forall k :: 0 <= k < |t| ==> t[k] == s[n + k];
    assert t[i - n..j - n] == s[i..j];
    assert Word(t, i - n, j - n);
  }

  /** The fields of a string are its words. */
  lemma {:induction false} FieldIff(s: string, w: string)
    ensures w in ParamSet(s) <==> HasWord(s, w)
    decreases |s|
  {
    if s != "" {
      var n := if IsSpace(s[0]) then 1 else WordEnd(s);
      FieldIff(s[n..], w);
      LaterWord(s, n, w);
      if !IsSpace(s[0]) { assert Word(s, 0, n) && s[0..n] == s[..n]; }
      if HasWord(s, w) {
        var i: nat, j: nat :| Word(s, i, j) && w == s[i..j];
        if i >= n { EarlierWord(s, n, i, j); } else { FirstWord(s, n, i, j); }
      }
    }
  }

  lemma FirstWord(s: string, n: nat, i: nat, j: nat)
    requires s != "" && n == (if IsSpace(s[0]) then 1 else WordEnd(s)) && Word(s, i, j) && i < n
    ensures !IsSpace(s[0]) && i == 0 && j == n
  {
    assert !IsSpace(s[i]);
  }

  method SetsEqual(a: set<string>, b: set<string>) returns (same: bool)
    ensures same <==> a == b
  {
    if |a| != |b| { return false; }
    var rest := a;
    while rest != {}
      invariant rest <= a && a - rest <= b
      decreases |rest|
    {
      var k :| k in rest;
      if k !in b { return false; }
      rest := rest - {k};
    }
    SameSize(a, b);
    return true;
  }

  lemma SameSize(a: set<string>, b: set<string>)
    requires a <= b && |a| == |b|
    ensures a == b
  {
    assert b == a + (b - a);
  }

  /** Both kernels are known and differ, or both parameter lists are and their sets of words differ. */
  predicate Changed(running: string, current: string, booted: string, latest: string) {
    || (Trim(running) != "" && Trim(current) != "" && Trim(running) != Trim(current))
    || (ParamSet(booted) != {} && ParamSet(latest) != {} && ParamSet(booted) != ParamSet(latest))
  }

  method KernelChanged(running: string, current: string, booted: string, latest: string) returns (changed: bool)
    ensures changed <==> Changed(running, current, booted, latest)
  {
    var r, c := Trim(running), Trim(current);
    if r != "" && c != "" && r != c { return true; }
    var bp, cp := ParamSet(booted), ParamSet(latest);
    var same := SetsEqual(bp, cp);
    return bp != {} && cp != {} && !same;
  }

  lemma TrimEmptyIff(s: string)
    ensures Trim(s) == "" <==> Blank(s)
  {
    var a, b := TrimMeans(s);
    if Trim(s) == "" {
      assert s == a + b;
    } else {
      assert s[|a|] == Trim(s)[0];
    }
  }

  /** The parameters count as changed only when both lists have words and a word is in one and not in the other. */
  lemma ChangedIff(running: string, current: string, booted: string, latest: string)
    ensures Changed(running, current, booted, latest) <==>
            || (!Blank(running) && !Blank(current) && Trim(running) != Trim(current))
            || ((exists w :: HasWord(booted, w)) && (exists w :: HasWord(latest, w))
                && exists w :: !(HasWord(booted, w) <==> HasWord(latest, w)))
  {
    TrimEmptyIff(running);
    TrimEmptyIff(current);
    forall w ensures (w in ParamSet(booted) <==> HasWord(booted, w)) && (w in ParamSet(latest) <==> HasWord(latest, w))
    {
      FieldIff(booted, w);
      FieldIff(latest, w);
    }
    if ParamSet(booted) != {} { var w :| w in ParamSet(booted); assert HasWord(booted, w); }
    if ParamSet(latest) != {} { var w :| w in ParamSet(latest); assert HasWord(latest, w); }
  }
}
