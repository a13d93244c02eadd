/**
 * The languages of the import-id patterns of the resources, stated without a regular
 * expression engine.
 *
 * - `[a-zA-Z0-9]*` segments separated by "/": a segment never holds "/", so a segment ends
 *   at the first "/" after it starts (`Cut`).
 * - Literal separators with `.*` gaps between them, as in the Azure resource id: a gap may
 *   hold anything but a newline, since `.` does not match "\n". Such a text matches exactly
 *   when taking the leftmost occurrence of each separator in turn succeeds (`GreedyGaps`).
 */
module IdGrammar {
  import opened Wrappers
  import opened GoText

  /** An alphanumeric segment holds no "/". */
  lemma AlnumHasNoSlash(s: string)
    requires AllAlnum(s)
    ensures '/' !in s
  {
    assert forall k :: 0 <= k < |s| ==> s[k] != '/';
  }

  // ---------------------------------------------------------------------------
  // Cutting at the first separator
  // ---------------------------------------------------------------------------

  /** The text before and after the first `sep`, and whether there is one. */
  function Cut(s: string, sep: char): (r: (string, string, bool))
    ensures r.2 <==> sep in s
    ensures r.2 ==> s == r.0 + [sep] + r.1 && sep !in r.0
    ensures !r.2 ==> r.0 == s && r.1 == []
    decreases |s|
  {
    if s == [] then ([], [], false)
    else if s[0] == sep then ([], s[1..], true)
    else
      var r := Cut(s[1..], sep);
      assert s == [s[0]] + s[1..];
      ([s[0]] + r.0, r.1, r.2)
  }

  /** Cutting `a + sep + rest`, where `a` holds no separator, gives back `a` and `rest`. */
  lemma CutAt(a: string, sep: char, rest: string)
    requires sep !in a
    ensures Cut(a + [sep] + rest, sep) == (a, rest, true)
  {
    var s := a + [sep] + rest;
    assert s[|a|] == sep;
    var r := Cut(s, sep);
    assert forall k :: 0 <= k < |a| ==> s[k] != sep;
    assert forall k :: 0 <= k < |r.0| ==> s[k] != sep;
    assert s[|r.0|] == sep;
    assert |r.0| == |a|;
    assert r.0 == s[..|a|] == a;
    assert r.1 == s[|a| + 1..] == rest;
  }

  // ---------------------------------------------------------------------------
  // Literal separators with gaps between them
  // ---------------------------------------------------------------------------

  /** `gaps[0] + pats[0] + gaps[1] + ... + pats[n-1] + gaps[n]`. */
  function Interleave(gaps: seq<string>, pats: seq<string>): string
    requires |gaps| == |pats| + 1
    decreases |pats|
  {
    if pats == [] then gaps[0] else gaps[0] + pats[0] + Interleave(gaps[1..], pats[1..])
  }

  predicate OccursAt(t: string, p: string, k: nat) {
    k + |p| <= |t| && t[k..k + |p|] == p
  }

  /** The leftmost occurrence of `p` in `t` at or after `k`. */
  function FirstFrom(t: string, p: string, k: nat): (r: Option<nat>)
    ensures r.Some? ==> k <= r.value && OccursAt(t, p, r.value)
    ensures r.Some? ==> forall j :: k <= j < r.value ==> !OccursAt(t, p, j)
    ensures r.None? ==> forall j :: k <= j ==> !OccursAt(t, p, j)
    decreases |t| - k
  {
    if k + |p| > |t| then None
    else if t[k..k + |p|] == p then Some(k)
    else FirstFrom(t, p, k + 1)
  }

  /**
   * The gaps found by taking the leftmost occurrence of each separator in turn; the last gap
   * is whatever follows the last separator.
   */
  function GreedyGaps(t: string, pats: seq<string>): Option<seq<string>>
    decreases |pats|
  {
    if pats == [] then Some([t])
    else
      var first := FirstFrom(t, pats[0], 0);
      if first.None? then None
      else
        var i := first.value;
        var rest := GreedyGaps(t[i + |pats[0]|..], pats[1..]);
        if rest.None? then None else Some([t[..i]] + rest.value)
  }

  /** The gaps the greedy search finds, put back between the separators, give the text back. */
  lemma {:induction false} GreedyGapsSound(t: string, pats: seq<string>)
    requires GreedyGaps(t, pats).Some?
    ensures var gaps := GreedyGaps(t, pats).value; |gaps| == |pats| + 1 && Interleave(gaps, pats) == t
    decreases |pats|
  {
    if pats != [] {
      var i := FirstFrom(t, pats[0], 0).value;
      var after := t[i + |pats[0]|..];
      GreedyGapsSound(after, pats[1..]);
      var gs := GreedyGaps(after, pats[1..]).value;
      var gaps := [t[..i]] + gs;
      assert GreedyGaps(t, pats).value == gaps;
      assert gaps[0] == t[..i] && gaps[1..] == gs;
      assert Interleave(gaps, pats) == t[..i] + pats[0] + after;
      Recompose(t, pats[0], i);
    }
  }

  /** Around an occurrence of `p` at `k`, the text is what precedes it, `p`, and what follows. */
  lemma Recompose(t: string, p: string, k: nat)
    requires OccursAt(t, p, k)
    ensures t[..k] + p + t[k + |p|..] == t
  {
    assert t[..k] + t[k..k + |p|] + t[k + |p|..] == t;
  }

  /** An occurrence at `k` means the leftmost one is at `k` or before. */
  lemma FirstAtOrBefore(t: string, p: string, k: nat)
    requires OccursAt(t, p, k)
    ensures FirstFrom(t, p, 0).Some? && FirstFrom(t, p, 0).value <= k
  {
  }

  /** One step of `GreedyGaps`: it succeeds when the search after the leftmost separator does. */
  lemma GreedyStep(t: string, pats: seq<string>, i: nat)
    requires pats != [] && FirstFrom(t, pats[0], 0) == Some(i)
    requires GreedyGaps(t[i + |pats[0]|..], pats[1..]).Some?
    ensures GreedyGaps(t, pats).Some?
  {
    var gs := GreedyGaps(t[i + |pats[0]|..], pats[1..]).value;
    assert GreedyGaps(t, pats) == Some([t[..i]] + gs);
  }

  /** The text of `u + p + rest` after any position up to the end of `p`. */
  lemma TailAfter(u: string, p: string, rest: string, j: nat)
    requires j <= |u| + |p|
    ensures var t := u + p + rest; t[j..] == t[j..|u| + |p|] + rest
  {
    var t := u + p + rest;
    assert t[|u| + |p|..] == rest;
  }

  /** The middle piece of a three-piece concatenation sits right after the first. */
  lemma MiddleAt(u: string, p: string, rest: string)
    ensures OccursAt(u + p + rest, p, |u|)
  {
    var t := u + p + rest;
    assert t[|u|..|u| + |p|] == p;
  }

  /** An interleaving after `x` is `x`, the first gap, the first separator, then the rest. */
  lemma UnfoldInterleave(x: string, gaps: seq<string>, pats: seq<string>)
    requires |gaps| == |pats| + 1 && pats != []
    ensures x + Interleave(gaps, pats) == (x + gaps[0]) + pats[0] + Interleave(gaps[1..], pats[1..])
    ensures OccursAt(x + Interleave(gaps, pats), pats[0], |x + gaps[0]|)
  {
    var rest := Interleave(gaps[1..], pats[1..]);
    assert Interleave(gaps, pats) == gaps[0] + pats[0] + rest;
    assert x + (gaps[0] + pats[0] + rest) == (x + gaps[0]) + pats[0] + rest;
    MiddleAt(x + gaps[0], pats[0], rest);
  }

  /**
   * The leftmost choice never loses a match: whatever text precedes an interleaving, the
   * greedy search finds gaps for it.
   */
  lemma {:induction false} GreedyFindsGaps(x: string, gaps: seq<string>, pats: seq<string>)
    requires |gaps| == |pats| + 1
    ensures GreedyGaps(x + Interleave(gaps, pats), pats).Some?
    decreases |pats|
  {
    if pats != [] {
      var u, p, rest := x + gaps[0], pats[0], Interleave(gaps[1..], pats[1..]);
      var t := x + Interleave(gaps, pats);
      UnfoldInterleave(x, gaps, pats);
      FirstAtOrBefore(t, p, |u|);
      var i := FirstFrom(t, p, 0).value;
      TailAfter(u, p, rest, i + |p|);
      GreedyFindsGaps(t[i + |p|..|u| + |p|], gaps[1..], pats[1..]);
      GreedyStep(t, pats, i);
    }
  }

  /** A character in no gap and in no separator is not in their interleaving. */
  lemma {:induction false} InterleaveAvoids(c: char, gaps: seq<string>, pats: seq<string>)
    requires |gaps| == |pats| + 1
    requires forall i :: 0 <= i < |gaps| ==> c !in gaps[i]
    requires forall i :: 0 <= i < |pats| ==> c !in pats[i]
    ensures c !in Interleave(gaps, pats)
    decreases |pats|
  {
    if pats != [] {
      InterleaveAvoids(c, gaps[1..], pats[1..]);
    }
  }

  /** Every gap is part of the interleaving. */
  lemma {:induction false} InterleaveHoldsGaps(c: char, gaps: seq<string>, pats: seq<string>, i: nat)
    requires |gaps| == |pats| + 1
    requires i < |gaps| && c in gaps[i]
    ensures c in Interleave(gaps, pats)
    decreases |pats|
  {
    if pats != [] && i > 0 {
      InterleaveHoldsGaps(c, gaps[1..], pats[1..], i - 1);
    }
  }

  // ---------------------------------------------------------------------------
  // The Azure resource id of a virtual network
  // ---------------------------------------------------------------------------

  const SubscriptionsPrefix := "/subscriptions/"

  /** The separators after the prefix, in order: resource group, provider namespace, type, name. */
  const AzureIdSeparators: seq<string> := ["/resourceGroups/", "/providers/", "/", "/"]

  // The id group of the block network import pattern: "/subscriptions/", then the
  // separators "/resourceGroups/", "/providers/", "/" and "/", with a `.*` gap after each.
  predicate AzureResourceIdTail(t: string) {
    '\n' !in t
    && |SubscriptionsPrefix| <= |t| && t[..|SubscriptionsPrefix|] == SubscriptionsPrefix
    && GreedyGaps(t[|SubscriptionsPrefix|..], AzureIdSeparators).Some?
  }

  /** The resource id with the given subscription, group, namespace, type and name. */
  function AzureResourceId(gaps: seq<string>): string
    requires |gaps| == 5
  {
    SubscriptionsPrefix + Interleave(gaps, AzureIdSeparators)
  }

  /** An interleaving of five gaps with four separators, written out. */
  lemma InterleaveFour(gaps: seq<string>, pats: seq<string>)
    requires |gaps| == 5 && |pats| == 4
    ensures Interleave(gaps, pats)
            == gaps[0] + pats[0] + (gaps[1] + pats[1] + (gaps[2] + pats[2] + (gaps[3] + pats[3] + gaps[4])))
  {
    assert Interleave(gaps[4..], pats[4..]) == gaps[4];
    assert Interleave(gaps[3..], pats[3..]) == gaps[3] + pats[3] + gaps[4];
    assert Interleave(gaps[2..], pats[2..]) == gaps[2] + pats[2] + Interleave(gaps[3..], pats[3..]);
    assert Interleave(gaps[1..], pats[1..]) == gaps[1] + pats[1] + Interleave(gaps[2..], pats[2..]);
  }

  /** The resource id spelled out: subscription, group, namespace, type and name in their places. */
  lemma AzureResourceIdText(gaps: seq<string>)
    requires |gaps| == 5
    ensures AzureResourceId(gaps) == "/subscriptions/" + gaps[0] + "/resourceGroups/" + gaps[1] + "/providers/"
                                     + gaps[2] + "/" + gaps[3] + "/" + gaps[4]
  {
    InterleaveFour(gaps, AzureIdSeparators);
  }

  predicate NoNewline(gaps: seq<string>) {
    forall i :: 0 <= i < |gaps| ==> '\n' !in gaps[i]
  }

  /** Every resource id with newline-free parts is accepted. */
  lemma AzureResourceIdAccepted(gaps: seq<string>)
    requires |gaps| == 5 && NoNewline(gaps)
    ensures AzureResourceIdTail(AzureResourceId(gaps))
  {
    var t := AzureResourceId(gaps);
    InterleaveAvoids('\n', gaps, AzureIdSeparators);
    assert t[..|SubscriptionsPrefix|] == SubscriptionsPrefix;
    assert t[|SubscriptionsPrefix|..] == "" + Interleave(gaps, AzureIdSeparators);
    GreedyFindsGaps("", gaps, AzureIdSeparators);
  }

  /** Every accepted text is a resource id with newline-free parts: the ones the greedy search finds. */
  lemma AzureResourceIdParts(t: string) returns (gaps: seq<string>)
    requires AzureResourceIdTail(t)
    ensures |gaps| == 5 && NoNewline(gaps) && t == AzureResourceId(gaps)
  {
    gaps := GreedyGaps(t[|SubscriptionsPrefix|..], AzureIdSeparators).value;
    GreedyGapsSound(t[|SubscriptionsPrefix|..], AzureIdSeparators);
    assert t == SubscriptionsPrefix + t[|SubscriptionsPrefix|..];
    forall i | 0 <= i < |gaps|
      ensures '\n' !in gaps[i]
    {
      if '\n' in gaps[i] {
        InterleaveHoldsGaps('\n', gaps, AzureIdSeparators, i);
      }
    }
  }
}
