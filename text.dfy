/** The string operations the search boxes and name look-ups use:
    `toLowerCase` (over ASCII), `includes`, and the `found?.name || fallback`
    idiom. */
module Text {
  import opened Collections

  predicate IsUpper(c: char) { 'A' <= c <= 'Z' }

  function LowerChar(c: char): char
  {
    if IsUpper(c) then (c as int + 32) as char else c
  }

  /** `s.toLowerCase()` restricted to ASCII letters. */
  function Lower(s: string): (r: string)
    ensures |r| == |s|
    ensures forall i :: 0 <= i < |r| ==> !IsUpper(r[i])
    ensures forall i :: 0 <= i < |s| && !IsUpper(s[i]) ==> r[i] == s[i]
    ensures forall i :: 0 <= i < |s| && IsUpper(s[i]) ==> r[i] as int == s[i] as int + 32
  {
    seq(|s|, i requires 0 <= i < |s| => LowerChar(s[i]))
  }

  lemma LowerIdempotent(s: string)
    ensures Lower(Lower(s)) == Lower(s)
  {
  }

  /** `s.includes(sub)`, computed by trying every offset in turn. */
  function Contains(s: string, sub: string): bool
    decreases |s|
  {
    if sub <= s then true
    else if s == [] then false
    else Contains(s[1..], sub)
  }

  /** `sub` sits in `s` starting at offset `k`. */
  ghost predicate OccursAt(s: string, sub: string, k: int)
  {
    0 <= k <= |s| - |sub| && s[k..k + |sub|] == sub
  }

  /** `Contains` holds exactly when `sub` occurs in `s` at some offset. */
  lemma ContainsIffOccurs(s: string, sub: string)
    ensures Contains(s, sub) <==> exists k :: OccursAt(s, sub, k)
  {
    if Contains(s, sub) {
      ContainsHasOffset(s, sub);
    }
    forall k | OccursAt(s, sub, k) ensures Contains(s, sub) {
      OffsetIsContained(s, sub, k);
    }
  }

  lemma {:induction false} ContainsHasOffset(s: string, sub: string)
    requires Contains(s, sub)
    ensures exists k :: OccursAt(s, sub, k)
    decreases |s|
  {
    if sub <= s {
      assert OccursAt(s, sub, 0);
    } else {
      ContainsHasOffset(s[1..], sub);
      var t := s[1..];
      var k :| OccursAt(t, sub, k);
      assert s[k + 1..k + 1 + |sub|] == sub by {
        forall i | 0 <= i < |sub| ensures s[k + 1..k + 1 + |sub|][i] == sub[i] {
          assert s[k + 1 + i] == t[k + i];
          assert t[k..k + |sub|][i] == t[k + i];
        }
      }
      assert OccursAt(s, sub, k + 1);
    }
  }

  lemma {:induction false} OffsetIsContained(s: string, sub: string, k: int)
    requires OccursAt(s, sub, k)
    ensures Contains(s, sub)
    decreases k
  {
    if k > 0 && !(sub <= s) {
      var t := s[1..];
      assert t[k - 1..k - 1 + |sub|] == sub by {
        forall i | 0 <= i < |sub| ensures t[k - 1..k - 1 + |sub|][i] == sub[i] {
          assert t[k - 1 + i] == s[k + i];
          assert s[k..k + |sub|][i] == s[k + i];
        }
      }
      OffsetIsContained(t, sub, k - 1);
    }
  }

  /** The empty search string occurs in every string. */
  lemma ContainsEmpty(s: string)
    ensures Contains(s, "")
  {
  }

  /** `found?.name || fallback`: a missing or empty name falls back. */
  function OrDefault(name: Option<string>, fallback: string): (r: string)
    ensures r == fallback <==> name.None? || name.value == "" || name.value == fallback
    ensures r != fallback ==> name == Some(r)
  {
    if name.Some? && name.value != "" then name.value else fallback
  }
}
