/** Stripping a Markdown code fence from the model's reply before it is
    parsed (app/api/route.ts:74-78). The regular expression
    /```[a-zA-Z]*\n([\s\S]*?)\n```/ is modelled by its search semantics:
    the leftmost start position at which it matches, the greedy letter run,
    and the shortest (lazy) body. */
module Fences {
  import opened Wrappers
  import opened Text

  /** Three backticks start at `i`. */
  predicate FenceAt(s: string, i: int) {
    0 <= i && i + 3 <= |s| && s[i..i + 3] == "```"
  }

  /** A newline and three backticks start at `k`: the closing `\n````. */
  predicate CloseAt(s: string, k: int) {
    0 <= k && k + 4 <= |s| && s[k..k + 4] == "\n```"
  }

  /** End of the greedy run `[a-zA-Z]*` starting at `j`. */
  function LetterRunEnd(s: string, j: nat): (e: nat)
    requires j <= |s|
    ensures j <= e <= |s|
    ensures forall p :: j <= p < e ==> IsLetter(s[p])
    ensures e == |s| || !IsLetter(s[e])
    decreases |s| - j
  {
    if j < |s| && IsLetter(s[j]) then LetterRunEnd(s, j + 1) else j
  }

  /** The first closing `\n```` at or after `from`: the lazy `[\s\S]*?`
      stops at the earliest one. */
  function FirstClose(s: string, from: nat): (k: Option<nat>)
    ensures k.Some? ==> (from <= k.value && CloseAt(s, k.value)
                         && forall p :: from <= p < k.value ==> !CloseAt(s, p))
    ensures k.None? ==> forall p :: from <= p ==> !CloseAt(s, p)
    decreases |s| - from
  {
    if from + 4 > |s| then None
    else if CloseAt(s, from) then Some(from)
    else FirstClose(s, from + 1)
  }

  /** The captured body of a match that starts at `i`, if the pattern
      matches there. Since a letter is never a newline, the greedy letter
      run has no alternative, so each start position has at most one match. */
  function MatchAt(s: string, i: nat): Option<string> {
    if !FenceAt(s, i) then None
    else
      var j := LetterRunEnd(s, i + 3);
      if j < |s| && s[j] == '\n' then
        match FirstClose(s, j + 1)
        case Some(k) => Some(s[j + 1..k])
        case None => None
      else None
  }

  /** `s.match(re)` without the g flag: the capture of the leftmost match
      at or after `from`. */
  function FenceMatch(s: string, from: nat): Option<string>
    decreases |s| - from
  {
    if from > |s| then None
    else if MatchAt(s, from).Some? then MatchAt(s, from)
    else FenceMatch(s, from + 1)
  }

  /** `s.replace(/```/g, "")`: left to right, non-overlapping. */
  function RemoveFences(s: string): string {
    if FenceAt(s, 0) then RemoveFences(s[3..])
    else if s == [] then []
    else [s[0]] + RemoveFences(s[1..])
  }

  /** The text handed to `JSON.parse`. */
  function StripFences(raw: string): string {
    var t := Trim(raw);
    if FenceAt(t, 0) then
      match FenceMatch(t, 0)
      case Some(body) => Trim(body)
      case None => RemoveFences(t)
    else t
  }

  /** A reply that does not start with three backticks (after trimming) is
      parsed as its trimmed self. */
  lemma StripUnfenced(raw: string)
    requires !FenceAt(Trim(raw), 0)
    ensures StripFences(raw) == Trim(raw)
  {
  }

  /** A backtick at the front of the removal's output was a backtick at the
      front of its input. */
  lemma {:induction false} RemoveFencesHead(s: string)
    ensures var r := RemoveFences(s); r != [] && r[0] == '`' ==> s != [] && s[0] == '`'
  {
    if FenceAt(s, 0) {
    } else if s != [] {
    }
  }

  /** Two backticks at the front of the output were two at the front of the input. */
  lemma {:induction false} RemoveFencesHead2(s: string)
    ensures var r := RemoveFences(s);
      |r| >= 2 && r[0] == '`' && r[1] == '`' ==> |s| >= 2 && s[0] == '`' && s[1] == '`'
  {
    if !FenceAt(s, 0) && s != [] {
      RemoveFencesHead(s[1..]);
      var r := RemoveFences(s);
      assert r == [s[0]] + RemoveFences(s[1..]);
      if |r| >= 2 {
        assert r[1] == RemoveFences(s[1..])[0];
      }
    }
  }

  /** After the global removal no three backticks remain anywhere: a kept
      backtick followed by two more would itself have started a removed triple. */
  lemma {:induction false} RemoveFencesClean(s: string)
    ensures forall i :: !FenceAt(RemoveFences(s), i)
  {
    if FenceAt(s, 0) {
      RemoveFencesClean(s[3..]);
    } else if s != [] {
      var t := s[1..];
      RemoveFencesClean(t);
      RemoveFencesHead2(t);
      var r := RemoveFences(s);
      assert r == [s[0]] + RemoveFences(t);
      forall i ensures !FenceAt(r, i) {
        if 0 < i && i + 3 <= |r| {
          assert r[i..i + 3] == RemoveFences(t)[i - 1..i + 2];
          assert !FenceAt(RemoveFences(t), i - 1);
        }
        if i == 0 {
          if |t| >= 2 {
            assert s[..3] == [s[0], t[0], t[1]];
          }
          if |RemoveFences(t)| >= 2 {
            assert r[..3] == [s[0], RemoveFences(t)[0], RemoveFences(t)[1]];
          }
        }
      }
    }
  }

  /** Text without three backticks is left alone by the removal. */
  lemma {:induction false} RemoveFencesIdentity(s: string)
    requires forall i :: !FenceAt(s, i)
    ensures RemoveFences(s) == s
  {
    if s != [] {
      forall i ensures !FenceAt(s[1..], i) {
        if FenceAt(s[1..], i) {
          assert s[1..][i..i + 3] == s[i + 1..i + 4];
          assert FenceAt(s, i + 1);
        }
      }
      RemoveFencesIdentity(s[1..]);
    }
  }

  /** When the reply starts with a fence but the pattern matches nowhere,
      every triple backtick is removed. */
  lemma StripUnmatchedFence(raw: string)
    requires FenceAt(Trim(raw), 0) && FenceMatch(Trim(raw), 0).None?
    ensures StripFences(raw) == RemoveFences(Trim(raw))
    ensures forall i :: !FenceAt(StripFences(raw), i)
  {
    RemoveFencesClean(Trim(raw));
  }

  /** No closing `\n```` lies inside the body nor straddles its end. */
  lemma NoCloseBefore(tag: string, body: string, p: int)
    requires forall q :: !CloseAt(body, q)
    requires var s := "```" + tag + "\n" + body + "\n```";
      4 + |tag| <= p < 4 + |tag| + |body|
    ensures !CloseAt("```" + tag + "\n" + body + "\n```", p)
  {
    var s := "```" + tag + "\n" + body + "\n```";
    var b := 4 + |tag|;
    assert s[b..b + |body|] == body;
    assert s[b + |body|..] == "\n```";
    if p + 4 <= b + |body| {
      assert s[p..p + 4] == body[p - b..p - b + 4];
      assert !CloseAt(body, p - b);
    } else {
      var off := b + |body| - p;
      assert s[p + off] == '\n';
      assert s[p..p + 4][off] == s[p + off];
    }
  }

  /** A well-formed fenced block is unwrapped to its trimmed body. */
  lemma {:induction false} StripFencedBlock(tag: string, body: string)
    requires forall i :: 0 <= i < |tag| ==> IsLetter(tag[i])
    requires forall q :: !CloseAt(body, q)
    ensures StripFences("```" + tag + "\n" + body + "\n```") == Trim(body)
  {
    var s := "```" + tag + "\n" + body + "\n```";
    var j := 3 + |tag|;
    assert s[..3] == "```";
    assert s[3..j] == tag;
    assert s[j] == '\n';
    assert s[|s| - 1] == '`';
    TrimUnpadded(s);
    assert FenceAt(s, 0);
    assert LetterRunEnd(s, 3) == j by {
      forall p | 3 <= p < j ensures IsLetter(s[p]) {
        assert s[p] == tag[p - 3];
      }
      LetterRunEndOfRun(s, 3, j);
    }
    var k := j + 1 + |body|;
    assert CloseAt(s, k) by {
      assert s[k..k + 4] == "\n```";
    }
    forall p | j + 1 <= p < k ensures !CloseAt(s, p) {
      NoCloseBefore(tag, body, p);
    }
    FirstCloseIsEarliest(s, j + 1, k);
    assert s[j + 1..k] == body;
    assert MatchAt(s, 0) == Some(body);
  }

  /** A letter run that ends at a non-letter ends exactly there. */
  lemma {:induction false} LetterRunEndOfRun(s: string, j: nat, e: nat)
    requires j <= e < |s|
    requires forall p :: j <= p < e ==> IsLetter(s[p])
    requires !IsLetter(s[e])
    ensures LetterRunEnd(s, j) == e
    decreases e - j
  {
    if j < e {
      LetterRunEndOfRun(s, j + 1, e);
    }
  }

  /** The first closing position found from `from` is the earliest one. */
  lemma FirstCloseIsEarliest(s: string, from: nat, k: nat)
    requires from <= k && CloseAt(s, k)
    requires forall p :: from <= p < k ==> !CloseAt(s, p)
    ensures FirstClose(s, from) == Some(k)
  {
  }

  /** The reply ```json\n[]\n``` is unwrapped to `[]`. */
  lemma StripJsonEmptyList()
    ensures StripFences("```json\n[]\n```") == "[]"
  {
    assert "```json\n[]\n```" == "```" + "json" + "\n" + "[]" + "\n```";
    StripFencedBlock("json", "[]");
    TrimUnpadded("[]");
  }
}
