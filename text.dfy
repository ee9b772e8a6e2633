/** String tests used by the link-scoring signals: Python's `sub in s` on
    strings, `any(... for w in words)` over a keyword list, and the
    `str.isdigit` test over the characters of a URL path. */
module Text {

  /** Python's `sub in s` for two strings: `sub` occurs as a contiguous run of `s`. */
  predicate Contains(s: string, sub: string)
    decreases |s|
  {
    if |sub| > |s| then false
    else s[..|sub|] == sub || (|s| > 0 && Contains(s[1..], sub))
  }

  /** `sub` occurs in `s` starting at offset `i`. */
  predicate OccursAt(s: string, sub: string, i: int)
  {
    0 <= i <= |s| - |sub| && s[i..i + |sub|] == sub
  }

  /** `Contains` agrees with the positional reading: some offset of `s` starts a copy of `sub`. */
  lemma {:induction false} ContainsAt(s: string, sub: string)
    ensures Contains(s, sub) <==> exists i :: OccursAt(s, sub, i)
    decreases |s|
  {
    if |sub| > |s| {
    } else if s[..|sub|] == sub {
      assert OccursAt(s, sub, 0);
    } else {
      assert |s| > 0;
      ContainsAt(s[1..], sub);
      if Contains(s, sub) {
        var j :| OccursAt(s[1..], sub, j);
        assert s[j + 1..j + 1 + |sub|] == s[1..][j..j + |sub|];
        assert OccursAt(s, sub, j + 1);
      } else {
        forall i | OccursAt(s, sub, i)
          ensures false
        {
          if i > 0 {
            assert s[i..i + |sub|] == s[1..][i - 1..i - 1 + |sub|];
            assert OccursAt(s[1..], sub, i - 1);
          }
        }
      }
    }
  }

  /** Substring containment is transitive: a string that contains `mid` contains everything `mid` contains. */
  lemma ContainsTransitive(s: string, mid: string, sub: string)
    requires Contains(s, mid) && Contains(mid, sub)
    ensures Contains(s, sub)
  {
    ContainsAt(s, mid);
    ContainsAt(mid, sub);
    var i :| OccursAt(s, mid, i);
    var j :| OccursAt(mid, sub, j);
    forall k | 0 <= k < |sub|
      ensures s[i + j + k] == sub[k]
    {
      assert s[i..i + |mid|][j + k] == mid[j..j + |sub|][k];
    }
    assert s[i + j..i + j + |sub|] == sub;
    assert OccursAt(s, sub, i + j);
    ContainsAt(s, sub);
  }

  /** A string in which the first character of `sub` never appears does not contain `sub`. */
  lemma {:induction false} MissingFirstChar(s: string, sub: string)
    requires |sub| > 0 && sub[0] !in s
    ensures !Contains(s, sub)
    decreases |s|
  {
    if |sub| <= |s| {
      assert s[..|sub|][0] == s[0];
      assert sub[0] !in s[1..] by {
        assert forall c :: c in s[1..] ==> c in s;
      }
      MissingFirstChar(s[1..], sub);
    }
  }

  /** The empty string contains only the empty string. */
  lemma EmptyContainsOnlyEmpty(words: seq<string>)
    ensures ContainsAny("", words) <==> "" in words
  {
  }

  /** Python's `any(w in s for w in words)`: some keyword of the list occurs in `s`. */
  predicate ContainsAny(s: string, words: seq<string>)
  {
    exists w | w in words :: Contains(s, w)
  }

  /** The ASCII decimal digits `0`..`9`. */
  predicate IsDigit(c: char)
  {
    '0' <= c <= '9'
  }

  /** Python's `any(str.isdigit(c) for c in path)`. */
  predicate HasDigit(path: string)
  {
    exists i | 0 <= i < |path| :: IsDigit(path[i])
  }

  /** A string that contains `w` contains each letter of `w`. */
  lemma ContainsLetterOf(s: string, w: string, k: nat)
    requires k < |w| && Contains(s, w)
    ensures Contains(s, [w[k]])
  {
    assert OccursAt(w, [w[k]], k);
    ContainsAt(w, [w[k]]);
    ContainsTransitive(s, w, [w[k]]);
  }
}
