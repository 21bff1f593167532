/** NATS-style subject patterns: internal/webhooks/match.go. */
module Subjects {

  const STAR := "*"
  const TAIL := ">"

  /** strings.Split(s, ".") */
  function Split(s: string): (tokens: seq<string>)
    ensures |tokens| >= 1
  {
    if s == "" then [""]
    else
      var rest := Split(s[1..]);
      if s[0] == '.' then [""] + rest else [[s[0]] + rest[0]] + rest[1..]
  }

  function Join(tokens: seq<string>): string
    requires |tokens| >= 1
  {
    if |tokens| == 1 then tokens[0] else tokens[0] + "." + Join(tokens[1..])
  }

  /** Token by token: a literal matches itself, a star any one token, and a tail wildcard
      any rest with at least one token, whatever follows it in the pattern. */
  predicate Match(ps: seq<string>, ss: seq<string>) {
    if ps == [] then ss == []
    else if ps[0] == TAIL then ss != []
    else ss != [] && (ps[0] == STAR || ps[0] == ss[0]) && Match(ps[1..], ss[1..])
  }

  predicate Matches(pattern: string, subject: string) {
    pattern != "" && Match(Split(pattern), Split(subject))
  }

  /** The equality shortcut taken before the walk changes no answer. */
  method MatchSubject(pattern: string, subject: string) returns (r: bool)
    ensures r <==> Matches(pattern, subject)
    ensures pattern == "" ==> !r
    ensures pattern == subject && subject != "" ==> r
  {
    if pattern == "" {
      return false;
    }
    if pattern == subject {
      MatchReflexive(Split(pattern));
      return true;
    }
    var ps, ss := Split(pattern), Split(subject);
    for i := 0 to |ps|
      invariant i <= |ss|
      invariant Match(ps, ss) <==> Match(ps[i..], ss[i..])
    {
      var pt := ps[i];
      if pt == TAIL {
        return i < |ss|;
      }
      if i >= |ss| {
        return false;
      }
      assert ps[i..][1..] == ps[i + 1..] && ss[i..][1..] == ss[i + 1..];
      if pt == STAR {
        continue;
      }
      if pt != ss[i] {
        return false;
      }
    }
    return |ps| == |ss|;
  }

  /** No pattern at all means no filter. */
  method MatchAny(patterns: seq<string>, subject: string) returns (r: bool)
    ensures r <==> patterns == [] || exists p :: p in patterns && Matches(p, subject)
  {
    if |patterns| == 0 {
      return true;
    }
    for i := 0 to |patterns|
      invariant forall j :: 0 <= j < i ==> !Matches(patterns[j], subject)
    {
      var hit := MatchSubject(patterns[i], subject);
      if hit {
        return true;
      }
    }
    return false;
  }

  // ---------------------------------------------------------------- what the relation means

  lemma {:induction false} MatchReflexive(ps: seq<string>)
    ensures Match(ps, ps)
  {
    if ps != [] {
      MatchReflexive(ps[1..]);
    }
  }

  predicate AgreeUpTo(ps: seq<string>, ss: seq<string>, k: nat) {
    k <= |ps| && k <= |ss| && forall i :: 0 <= i < k ==> ps[i] != ">" && (ps[i] == "*" || ps[i] == ss[i])
  }

  /** Closed form: token-wise agreement, over the whole length or up to the first tail wildcard. */
  lemma {:induction false} MatchIsPointwise(ps: seq<string>, ss: seq<string>)
    ensures Match(ps, ss) <==>
            || (|ps| == |ss| && AgreeUpTo(ps, ss, |ps|))
            || (exists k :: 0 <= k < |ps| && k < |ss| && ps[k] == ">" && AgreeUpTo(ps, ss, k))
    decreases |ps|
  {
    if ps != [] && ps[0] == ">" {
      assert ss != [] ==> AgreeUpTo(ps, ss, 0);
    } else if ps != [] && ss != [] {
      var pt, st := ps[1..], ss[1..];
      MatchIsPointwise(pt, st);
      if exists k :: 0 <= k < |pt| && k < |st| && pt[k] == ">" && AgreeUpTo(pt, st, k) {
        var k :| 0 <= k < |pt| && k < |st| && pt[k] == ">" && AgreeUpTo(pt, st, k);
        if ps[0] == "*" || ps[0] == ss[0] {
          assert ps[k + 1] == ">" && AgreeUpTo(ps, ss, k + 1) by {
            ShiftAgreement(ps, ss, k);
          }
        }
      }
      if exists k :: 0 <= k < |ps| && k < |ss| && ps[k] == ">" && AgreeUpTo(ps, ss, k) {
        var k :| 0 <= k < |ps| && k < |ss| && ps[k] == ">" && AgreeUpTo(ps, ss, k);
        assert k >= 1 && pt[k - 1] == ">";
        ShiftAgreement(ps, ss, k - 1);
        assert AgreeUpTo(pt, st, k - 1);
      }
      if |ps| == |ss| {
        ShiftAgreement(ps, ss, |pt|);
      }
    }
  }

  lemma ShiftAgreement(ps: seq<string>, ss: seq<string>, k: nat)
    requires ps != [] && ss != []
    ensures AgreeUpTo(ps, ss, k + 1) <==> ps[0] != ">" && (ps[0] == "*" || ps[0] == ss[0])
                                          && AgreeUpTo(ps[1..], ss[1..], k)
  {
    if AgreeUpTo(ps[1..], ss[1..], k) && ps[0] != ">" && (ps[0] == "*" || ps[0] == ss[0]) {
      forall i | 0 <= i < k + 1 ensures ps[i] != ">" && (ps[i] == "*" || ps[i] == ss[i]) {
        if i > 0 {
          assert ps[i] == ps[1..][i - 1] && ss[i] == ss[1..][i - 1];
        }
      }
    }
  }

  // ---------------------------------------------------------------- splitting

  /** What one more leading character does to the tokens. */
  function Prepend(c: char, tokens: seq<string>): seq<string>
    requires |tokens| >= 1
  {
    if c == '.' then [""] + tokens else [[c] + tokens[0]] + tokens[1..]
  }

  lemma SplitOfCons(c: char, s: string)
    ensures Split([c] + s) == Prepend(c, Split(s))
  {
    assert ([c] + s)[1..] == s;
  }

  lemma PrependToConcat(c: char, xs: seq<string>, ys: seq<string>)
    requires |xs| >= 1
    ensures Prepend(c, xs + ys) == Prepend(c, xs) + ys
  {
    assert (xs + ys)[1..] == xs[1..] + ys;
  }

  lemma {:induction false} SplitOfConcat(a: string, b: string)
    ensures Split(a + "." + b) == Split(a) + Split(b)
    decreases |a|
  {
    if a == "" {
      assert a + "." + b == ['.'] + b;
      SplitOfCons('.', b);
    } else {
      var c, tail := a[0], a[1..];
      SplitOfConcat(tail, b);
      assert a + "." + b == [c] + (tail + "." + b) && a == [c] + tail;
      SplitOfCons(c, tail + "." + b);
      SplitOfCons(c, tail);
      PrependToConcat(c, Split(tail), Split(b));
    }
  }

  lemma {:induction false} JoinOfSplit(s: string)
    ensures Join(Split(s)) == s
    decreases |s|
  {
    if s != "" {
      JoinOfSplit(s[1..]);
      var rest := Split(s[1..]);
      if s[0] == '.' {
        assert ([""] + rest)[1..] == rest;
        assert s == "" + "." + s[1..];
      } else {
        var first := [s[0]] + rest[0];
        assert ([first] + rest[1..])[1..] == rest[1..];
        assert s == [s[0]] + s[1..];
        if |rest| > 1 {
          assert s[1..] == rest[0] + "." + Join(rest[1..]);
          assert first + "." + Join(rest[1..]) == [s[0]] + (rest[0] + "." + Join(rest[1..]));
        }
      }
    }
  }

  lemma {:induction false} JoinOfConcat(a: seq<string>, b: seq<string>)
    requires |a| >= 1 && |b| >= 1
    ensures Join(a + b) == Join(a) + "." + Join(b)
    decreases |a|
  {
    if |a| == 1 {
      assert (a + b)[1..] == b;
    } else {
      JoinOfConcat(a[1..], b);
      assert (a + b)[1..] == a[1..] + b;
      assert a[0] + "." + (Join(a[1..]) + "." + Join(b)) == a[0] + "." + Join(a[1..]) + "." + Join(b);
    }
  }

  predicate WildcardFree(q: string) {
    forall t :: t in Split(q) ==> t != "*" && t != ">"
  }

  lemma {:induction false} LiteralThenTail(qs: seq<string>, ss: seq<string>)
    requires forall t :: t in qs ==> t != "*" && t != ">"
    ensures Match(qs + [">"], ss) <==> |qs| < |ss| && ss[..|qs|] == qs
    decreases |qs|
  {
    if qs == [] {
      assert qs + [">"] == [">"];
    } else {
      assert (qs + [">"])[1..] == qs[1..] + [">"];
      assert qs[0] in qs;
      if ss != [] {
        assert forall t :: t in qs[1..] ==> t in qs;
        LiteralThenTail(qs[1..], ss[1..]);
        if |qs| < |ss| {
          assert ss[..|qs|] == [ss[0]] + ss[1..][..|qs| - 1];
        }
      }
    }
  }

  /** A subject starts with "q." exactly when its tokens start with those of q and do not end there. */
  lemma PrefixByTokens(q: string, subject: string)
    ensures q + "." <= subject <==> |Split(q)| < |Split(subject)| && Split(subject)[..|Split(q)|] == Split(q)
  {
    if q + "." <= subject {
      PrefixGivesTokens(q, subject, subject[|q| + 1..]);
    }
    if |Split(q)| < |Split(subject)| && Split(subject)[..|Split(q)|] == Split(q) {
      TokensGivePrefix(q, subject, Split(subject)[|Split(q)|..]);
    }
  }

  lemma PrefixGivesTokens(q: string, subject: string, rest: string)
    requires subject == q + "." + rest
    ensures |Split(q)| < |Split(subject)| && Split(subject)[..|Split(q)|] == Split(q)
  {
    SplitOfConcat(q, rest);
  }

  lemma TokensGivePrefix(q: string, subject: string, more: seq<string>)
    requires |more| >= 1 && Split(subject) == Split(q) + more
    ensures q + "." <= subject
  {
    JoinOfSplit(q);
    JoinOfSplit(subject);
    JoinOfConcat(Split(q), more);
  }

  /** For a wildcard-free prefix q, the pattern "q.>" matches exactly the subjects that start with "q.". */
  lemma TailPatternIsPrefix(q: string, subject: string)
    requires WildcardFree(q)
    ensures Matches(q + "." + ">", subject) <==> q + "." <= subject
  {
    SplitOfConcat(q, ">");
    assert Split(">") == [">"] by {
      assert ">"[1..] == "";
      assert [">"[0]] + Split("")[0] == ">";
    }
    LiteralThenTail(Split(q), Split(subject));
    PrefixByTokens(q, subject);
  }

  // ---------------------------------------------------------------- widening

  lemma {:induction false} StarWidens(ps: seq<string>, ss: seq<string>, i: nat)
    requires i < |ps| && ps[i] != ">" && Match(ps, ss)
    ensures Match(ps[i := "*"], ss)
    decreases i
  {
    if i > 0 && ps[0] != ">" {
      StarWidens(ps[1..], ss[1..], i - 1);
      assert ps[i := "*"][1..] == ps[1..][i - 1 := "*"];
    } else if i == 0 {
      assert ps[i := "*"][1..] == ps[1..];
    }
  }

  lemma {:induction false} TailWidens(ps: seq<string>, ss: seq<string>, i: nat)
    requires i < |ps| && Match(ps, ss)
    ensures Match(ps[..i] + [">"], ss)
    decreases i
  {
    if i > 0 && ps[0] != ">" {
      TailWidens(ps[1..], ss[1..], i - 1);
      assert (ps[..i] + [">"])[1..] == ps[1..][..i - 1] + [">"];
    }
  }
}
