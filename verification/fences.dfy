/**
 * Cleaning of the raw model reply before it is parsed
 * (planner/validator.py:50): `re.sub(r"```json|```", "", raw).strip()`.
 */
module Fences {

  const Fence: string := "```"
  const JsonFence: string := "```json"

  predicate StartsWith(s: string, p: string) {
    |p| <= |s| && s[..|p|] == p
  }

  /**
   * The regex substitution: scanning left to right, at each position the
   * alternative "```json" is tried before "```"; a match is deleted and the
   * scan resumes after it, otherwise one character is kept.
   */
  function RemoveFences(s: string): (r: string)
    ensures |r| <= |s|
  {
    if StartsWith(s, JsonFence) then RemoveFences(s[|JsonFence|..])
    else if StartsWith(s, Fence) then RemoveFences(s[|Fence|..])
    else if s == [] then []
    else [s[0]] + RemoveFences(s[1..])
  }

  /** The characters `str.isspace()` accepts, which `str.strip()` removes. */
  predicate IsSpace(c: char) {
    ('\t' <= c <= '\r') || ('\U{1C}' <= c <= ' ') || c == '\U{85}' || c == '\U{A0}'
    || c == '\U{1680}' || ('\U{2000}' <= c <= '\U{200A}') || c == '\U{2028}' || c == '\U{2029}'
    || c == '\U{202F}' || c == '\U{205F}' || c == '\U{3000}'
  }

  /** Number of whitespace characters at the front of `s`. */
  function LeadingSpace(s: string): (n: nat)
    ensures n <= |s|
    ensures forall k :: 0 <= k < n ==> IsSpace(s[k])
    ensures n < |s| ==> !IsSpace(s[n])
  {
    if s == [] || !IsSpace(s[0]) then 0 else 1 + LeadingSpace(s[1..])
  }

  /** Number of whitespace characters at the back of `s`. */
  function TrailingSpace(s: string): (n: nat)
    ensures n <= |s|
    ensures forall k :: |s| - n <= k < |s| ==> IsSpace(s[k])
    ensures n < |s| ==> !IsSpace(s[|s| - n - 1])
  {
    if s == [] || !IsSpace(s[|s| - 1]) then 0 else 1 + TrailingSpace(s[..|s| - 1])
  }

  /**
   * `str.strip()`: the result is a slice of `s` that neither starts nor ends
   * with whitespace, and everything cut away is whitespace.
   */
  function Strip(s: string): (r: string)
    ensures r == [] || (!IsSpace(r[0]) && !IsSpace(r[|r| - 1]))
    ensures exists i :: StrippedAt(s, i, r)
  {
    var i := LeadingSpace(s);
    var rest := s[i..];
    var r := rest[..|rest| - TrailingSpace(rest)];
    assert StrippedAt(s, i, r);
    r
  }

  /** `r` is the slice of `s` at `i`, and only whitespace surrounds it. */
  ghost predicate StrippedAt(s: string, i: int, r: string) {
    && 0 <= i <= |s| - |r|
    && r == s[i..i + |r|]
    && (forall k :: 0 <= k < i ==> IsSpace(s[k]))
    && (forall k :: i + |r| <= k < |s| ==> IsSpace(s[k]))
  }

  /**
   * The text handed to `json.loads`: no fence left anywhere, no whitespace
   * at either end.
   */
  function Clean(raw: string): (r: string)
    ensures !HasFence(r)
    ensures r == [] || (!IsSpace(r[0]) && !IsSpace(r[|r| - 1]))
    ensures |r| <= |raw|
  {
    var text := RemoveFences(raw);
    NoFenceLeft(raw);
    var r := Strip(text);
    SliceHasNoFence(text, r);
    r
  }

  predicate HasFence(s: string) {
    exists i | 0 <= i < |s| :: StartsWith(s[i..], Fence)
  }

  /** Text without backticks passes the substitution unchanged. */
  lemma {:induction false} NoBackticksUnchanged(s: string)
    requires '`' !in s
    ensures RemoveFences(s) == s
    ensures Clean(s) == Strip(s)
  {
    if s != [] {
      KeepsHead(s);
      NoTickInTail(s);
      NoBackticksUnchanged(s[1..]);
      assert s == [s[0]] + s[1..];
    }
  }

  /** The usual shape of a fenced reply loses exactly its two fences. */
  lemma FencedBlockUnwrapped(body: string)
    requires '`' !in body
    ensures RemoveFences(JsonFence + body + Fence) == body
  {
    var s := JsonFence + body + Fence;
    assert StartsWith(s, JsonFence);
    assert s[|JsonFence|..] == body + Fence;
    BodyThenFence(body);
  }

  lemma {:induction false} BodyThenFence(body: string)
    requires '`' !in body
    ensures RemoveFences(body + Fence) == body
  {
    if body == [] {
      assert StartsWith(body + Fence, Fence) && !StartsWith(body + Fence, JsonFence);
      assert (body + Fence)[|Fence|..] == [];
    } else {
      var s := body + Fence;
      assert s[0] == body[0];
      KeepsHead(s);
      assert s[1..] == body[1..] + Fence;
      NoTickInTail(body);
      BodyThenFence(body[1..]);
      assert body == [body[0]] + body[1..];
    }
  }

  /** A text without backticks has none after its first character either. */
  lemma NoTickInTail(s: string)
    requires s != [] && '`' !in s
    ensures '`' !in s[1..]
  {
    forall k | 0 <= k < |s| - 1 ensures s[1..][k] != '`' {
      assert s[1..][k] == s[k + 1];
    }
  }

  /** A stripped slice of a text without fences has none either. */
  lemma SliceHasNoFence(s: string, r: string)
    requires !HasFence(s)
    requires exists i :: StrippedAt(s, i, r)
    ensures !HasFence(r)
    ensures |r| <= |s|
  {
    var i :| StrippedAt(s, i, r);
    forall j | 0 <= j < |r|
      ensures !StartsWith(r[j..], Fence)
    {
      if j + |Fence| <= |r| {
        forall m | 0 <= m < |Fence| ensures s[i + j..][m] == r[j..][m] {
          assert r[j + m] == s[i..i + |r|][j + m];
        }
        assert s[i + j..][..|Fence|] == r[j..][..|Fence|];
        assert !StartsWith(s[i + j..], Fence);
      }
    }
  }

  /** A first character that is not a backtick is kept, and the scan goes on after it. */
  lemma KeepsHead(s: string)
    requires s != [] && s[0] != '`'
    ensures RemoveFences(s) == [s[0]] + RemoveFences(s[1..])
  {
    assert !StartsWith(s, JsonFence) by {
      if |JsonFence| <= |s| {
        assert s[..|JsonFence|][0] == s[0];
      }
    }
    assert !StartsWith(s, Fence) by {
      if |Fence| <= |s| {
        assert s[..|Fence|][0] == s[0];
      }
    }
  }

  /** If `s` does not start with two backticks, neither does its cleaning. */
  lemma NoDoubleTickAtFront(s: string)
    requires !StartsWith(s, "``")
    ensures !StartsWith(RemoveFences(s), "``")
  {
    if s != [] && s[0] == '`' && |s| > 1 {
      assert s[1] != '`';
      assert !StartsWith(s, Fence) && !StartsWith(s, JsonFence);
      KeepsHead(s[1..]);
      assert RemoveFences(s) == [s[0]] + RemoveFences(s[1..]);
    } else if s != [] && s[0] != '`' {
      KeepsHead(s);
    }
  }

  /** After the substitution no "```" is left anywhere in the text. */
  lemma {:induction false} NoFenceLeft(s: string)
    ensures !HasFence(RemoveFences(s))
  {
    if StartsWith(s, JsonFence) {
      NoFenceLeft(s[|JsonFence|..]);
    } else if StartsWith(s, Fence) {
      NoFenceLeft(s[|Fence|..]);
    } else if s != [] {
      NoFenceLeft(s[1..]);
      assert RemoveFences(s) == [s[0]] + RemoveFences(s[1..]);
      if s[0] == '`' {
        assert !StartsWith(s[1..], "``");
        NoDoubleTickAtFront(s[1..]);
      }
      ConsNoFence(s[0], RemoveFences(s[1..]));
    }
  }

  /** One character in front of a fence-free text makes no fence unless it completes one. */
  lemma ConsNoFence(c: char, tail: string)
    requires !HasFence(tail)
    requires c == '`' ==> !StartsWith(tail, "``")
    ensures !HasFence([c] + tail)
  {
    var r := [c] + tail;
    forall i | 0 <= i < |r|
      ensures !StartsWith(r[i..], Fence)
    {
      if i > 0 {
        assert r[i..] == tail[i - 1..];
      } else if |tail| >= 2 {
        assert r[..|Fence|] == [c, tail[0], tail[1]];
        assert c != '`' || tail[0] != '`' || tail[1] != '`' by {
          if c == '`' {
            assert tail[..2] == [tail[0], tail[1]];
          }
        }
      }
    }
  }
}
