/**
 ASCII case folding and the normalisation of Azure resource ids
 (strings.EqualFold and convertResourceGroupNameToLower on ASCII strings).
 */
module CaseFold {
  import opened Common

  const SUBSCRIPTIONS := "/subscriptions/"
  const RESOURCE_GROUPS := "/resourceGroups/"
  const PROVIDERS := "/providers/"

  function LowerChar(c: char): char {
    if 'A' <= c <= 'Z' then (c as int + 32) as char else c
  }

  function Lower(s: string): (r: string)
    ensures |r| == |s|
  {
    seq(|s|, i requires 0 <= i < |s| => LowerChar(s[i]))
  }

  predicate EqualFold(a: string, b: string) {
    Lower(a) == Lower(b)
  }

  /** The two letters are the same, or one the capital of the other, from A to Z. */
  predicate SameLetter(a: char, b: char) {
    a == b || ('A' <= a <= 'Z' && b as int == a as int + 32) || ('A' <= b <= 'Z' && a as int == b as int + 32)
  }

  lemma EqualFoldIff(a: string, b: string)
    ensures EqualFold(a, b) <==> |a| == |b| && forall k :: 0 <= k < |a| ==> SameLetter(a[k], b[k])
  {
    if EqualFold(a, b) {
      assert |Lower(a)| == |Lower(b)|;
      forall k | 0 <= k < |a| ensures SameLetter(a[k], b[k]) {
        assert Lower(a)[k] == Lower(b)[k];
      }
    }
  }

  predicate Occurs(s: string, pat: string, k: int) {
    0 <= k && k + |pat| <= |s| && s[k..k + |pat|] == pat
  }

  /** The string with `n` characters from `k` on lowered. */
  function LowerAt(s: string, k: nat, n: nat): (r: string)
    requires k + n <= |s|
    ensures |r| == |s|
    ensures forall q :: 0 <= q < |s| ==> r[q] == if k <= q < k + n then LowerChar(s[q]) else s[q]
  {
    s[..k] + Lower(s[k..k + n]) + s[k + n..]
  }

  /** The last position up to `n` at which `pat` occurs. */
  function LastAt(s: string, pat: string, n: int): (r: Option<nat>)
    ensures r.Some? ==> r.value <= n && Occurs(s, pat, r.value)
    ensures forall k :: (if r.Some? then r.value else -1) < k <= n ==> !Occurs(s, pat, k)
    decreases n + 1
  {
    if n < 0 then None else if Occurs(s, pat, n) then Some(n) else LastAt(s, pat, n - 1)
  }

  /** The first position from `n` at which `pat` occurs (strings.Index). */
  function FirstAt(s: string, pat: string, n: nat): (r: Option<nat>)
    ensures r.Some? ==> n <= r.value && Occurs(s, pat, r.value)
    ensures forall k :: n <= k < (if r.Some? then r.value else |s| + 1) ==> !Occurs(s, pat, k)
    decreases |s| - n
  {
    if n > |s| then None else if Occurs(s, pat, n) then Some(n)
    else if n == |s| then None else FirstAt(s, pat, n + 1)
  }

  /** The span the (greedy) expression captures: up to the last provider part, from the
      last resource group part that leaves a name between them. */
  function ResourceGroupSpan(id: string): (r: Option<(nat, nat)>)
    ensures r.Some? ==> r.value.0 < r.value.1 <= |id|
  {
    var j := LastAt(id, PROVIDERS, |id|);
    if j.None? then None else
    var b := LastAt(id, RESOURCE_GROUPS, j.value - |RESOURCE_GROUPS| - 1);
    if b.None? then None else
    if LastAt(id, SUBSCRIPTIONS, b.value - |SUBSCRIPTIONS|).None? then None
    else Some((b.value + |RESOURCE_GROUPS|, j.value))
  }

  predicate AzureFormat(id: string) {
    ResourceGroupSpan(id).Some?
  }

  /** An id is in the format exactly when it has a subscription part, then a non-empty
      resource group, then a provider part, however these are chosen. */
  lemma AzureFormatIff(id: string)
    ensures AzureFormat(id) <==>
      exists a, b, j ::
        && Occurs(id, SUBSCRIPTIONS, a) && Occurs(id, RESOURCE_GROUPS, b) && Occurs(id, PROVIDERS, j)
        && a + |SUBSCRIPTIONS| <= b && b + |RESOURCE_GROUPS| < j
  {
  }

  /** It ends where the provider part occurs last, and starts after the last resource group
      part that leaves a name in between, if a subscription part ends before that. */
  ghost predicate Captures(id: string, i: nat, j: nat) {
    && Occurs(id, "/providers/", j) && (forall k :: Occurs(id, "/providers/", k) ==> k <= j)
    && i < j && Occurs(id, "/resourceGroups/", i - 16)
    && (forall k :: Occurs(id, "/resourceGroups/", k) && k + 16 < j ==> k + 16 <= i)
    && (exists k :: Occurs(id, "/subscriptions/", k) && k + 15 <= i - 16)
  }

  lemma SpanCaptures(id: string, i: nat, j: nat)
    requires ResourceGroupSpan(id) == Some((i, j))
    ensures Captures(id, i, j)
  {
    var b := i - |RESOURCE_GROUPS|;
    assert |RESOURCE_GROUPS| == 16 && |SUBSCRIPTIONS| == 15;
    assert LastAt(id, PROVIDERS, |id|) == Some(j) && LastAt(id, RESOURCE_GROUPS, j - |RESOURCE_GROUPS| - 1) == Some(b);
    var a := LastAt(id, SUBSCRIPTIONS, b - |SUBSCRIPTIONS|).value;
    assert Occurs(id, "/subscriptions/", a);
  }

  lemma CapturesIsSpan(id: string, i: nat, j: nat)
    requires Captures(id, i, j)
    ensures ResourceGroupSpan(id) == Some((i, j))
  {
    assert |RESOURCE_GROUPS| == 16 && |SUBSCRIPTIONS| == 15;
    assert LastAt(id, PROVIDERS, |id|) == Some(j);
    assert LastAt(id, RESOURCE_GROUPS, j - |RESOURCE_GROUPS| - 1) == Some(i - 16);
  }

  /** What is captured, said by positions. */
  lemma SpanIff(id: string, i: nat, j: nat)
    ensures ResourceGroupSpan(id) == Some((i, j)) <==> Captures(id, i, j)
  {
    if ResourceGroupSpan(id) == Some((i, j)) {
      SpanCaptures(id, i, j);
    } else if Captures(id, i, j) {
      CapturesIsSpan(id, i, j);
    }
  }

  /** strings.Replace(id, id[i..j], strings.ToLower(id[i..j]), 1). */
  function LowerFirst(id: string, i: nat, j: nat): string
    requires i <= j <= |id|
  {
    assert Occurs(id, id[i..j], i);
    LowerAt(id, FirstAt(id, id[i..j], 0).value, j - i)
  }

  /** convertResourceGroupNameToLower: the first occurrence of the resource group's text
      is lowered, wherever it stands. */
  function Normalize(id: string): (r: Result<string>)
    ensures r.Ok? <==> AzureFormat(id)
  {
    var span := ResourceGroupSpan(id);
    if span.None? then Err else Ok(LowerFirst(id, span.value.0, span.value.1))
  }

  /** Normalisation never changes anything but letter case. */
  lemma NormalizeFolds(id: string)
    requires AzureFormat(id)
    ensures EqualFold(Normalize(id).value, id)
  {
  }

  /** The id with its resource group, and nothing else, lowered. */
  ghost function Canonical(id: string): string
    requires AzureFormat(id)
  {
    var (i, j) := ResourceGroupSpan(id).value;
    LowerAt(id, i, j - i)
  }

  lemma LowestUpper(s: string) returns (p: nat)
    requires Lower(s) != s
    ensures p < |s| && LowerChar(s[p]) != s[p] && forall q :: 0 <= q < p ==> LowerChar(s[q]) == s[q]
  {
    p := 0;
    while p < |s| && LowerChar(s[p]) == s[p]
      invariant p <= |s| && forall q :: 0 <= q < p ==> LowerChar(s[q]) == s[q]
    {
      p := p + 1;
    }
    assert p == |s| ==> Lower(s) == s;
  }

  /** Of two places with the same text, lowering the earlier or the later one gives
      different strings, unless there is nothing to lower. */
  lemma PlacesDiffer(s: string, k: nat, i: nat, n: nat)
    requires k < i && i + n <= |s| && s[k..k + n] == s[i..i + n]
    requires Lower(s[i..i + n]) != s[i..i + n]
    ensures LowerAt(s, k, n) != LowerAt(s, i, n)
  {
    var group := s[i..i + n];
    var p := LowestUpper(group);
    assert s[k..k + n][p] == group[p];
    assert LowerAt(s, k, n)[k + p] != LowerAt(s, i, n)[k + p];
  }

  lemma NothingToLower(s: string, k: nat, n: nat)
    requires k + n <= |s| && Lower(s[k..k + n]) == s[k..k + n]
    ensures LowerAt(s, k, n) == s
  {
  }

  lemma PlaceMatters(s: string, k: nat, i: nat, n: nat)
    requires k <= i && i + n <= |s| && s[k..k + n] == s[i..i + n]
    ensures LowerAt(s, k, n) == LowerAt(s, i, n) <==> Lower(s[i..i + n]) == s[i..i + n] || k == i
  {
    if Lower(s[i..i + n]) == s[i..i + n] {
      NothingToLower(s, k, n);
      NothingToLower(s, i, n);
    } else if k < i {
      PlacesDiffer(s, k, i, n);
    }
  }

  lemma LowerFirstIff(id: string, i: nat, j: nat)
    requires i <= j <= |id|
    ensures LowerFirst(id, i, j) == LowerAt(id, i, j - i) <==>
      Lower(id[i..j]) == id[i..j] || (forall k :: 0 <= k < i ==> !Occurs(id, id[i..j], k))
  {
    assert Occurs(id, id[i..j], i);
    var k := FirstAt(id, id[i..j], 0).value;
    assert Occurs(id, id[i..j], k);
    PlaceMatters(id, k, i, j - i);
  }

  /** Normalisation lowers the resource group, as documented, exactly when the group is
      already lower case or its text does not occur earlier in the id; it fails, say, for
      a group and a subscription both named A. */
  lemma NormalizeCanonicalIff(id: string)
    requires AzureFormat(id)
    ensures
      var (i, j) := ResourceGroupSpan(id).value;
      Normalize(id) == Ok(Canonical(id)) <==>
        Lower(id[i..j]) == id[i..j] || (forall k :: 0 <= k < i ==> !Occurs(id, id[i..j], k))
  {
    var (i, j) := ResourceGroupSpan(id).value;
    LowerFirstIff(id, i, j);
  }
}
