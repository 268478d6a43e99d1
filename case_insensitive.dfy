/**
 * Case-insensitive substring search: what `/token/i.test(s)` decides for a
 * regular expression made of literal characters. The tokens the device
 * checks look for are ASCII letters and spaces; without the `u` flag a
 * JavaScript case-insensitive match never maps a non-ASCII character onto
 * an ASCII one, so folding the ASCII letters alone is exact for them.
 */
module CaseInsensitive {

  /** ASCII lower-casing; every other character is left as it is. */
  function Lower(c: char): (r: char)
    ensures !('A' <= r <= 'Z')
    ensures r != c ==> 'A' <= c <= 'Z' && 'a' <= r <= 'z'
    ensures 'A' <= c <= 'Z' ==> r as int - 'a' as int == c as int - 'A' as int
  {
    if 'A' <= c <= 'Z' then (c as int + 32) as char else c
  }

  /** Two characters are the same letter up to case. */
  predicate SameLetter(a: char, b: char) {
    Lower(a) == Lower(b)
  }

  /** `s` begins with `t`, up to case. */
  predicate StartsWithCI(s: string, t: string) {
    |t| <= |s| && forall k :: 0 <= k < |t| ==> SameLetter(s[k], t[k])
  }

  /** The matcher: try `t` at the first position of `s`, then at the rest. */
  function ContainsCI(s: string, t: string): (r: bool)
    decreases |s|
  {
    StartsWithCI(s, t) || (|s| > 0 && ContainsCI(s[1..], t))
  }

  /** Reference definition: `t` occurs in `s` at index `i`, up to case. */
  ghost predicate OccursAt(s: string, t: string, i: int) {
    0 <= i && i + |t| <= |s| && forall k :: 0 <= k < |t| ==> SameLetter(s[i + k], t[k])
  }

  /** The matcher finds `t` exactly when it occurs somewhere in `s`. */
  lemma {:induction false} ContainsCIIffOccurs(s: string, t: string)
    ensures ContainsCI(s, t) <==> exists i :: OccursAt(s, t, i)
    decreases |s|
  {
    if StartsWithCI(s, t) {
      assert OccursAt(s, t, 0);
    } else if |s| == 0 {
      if i :| OccursAt(s, t, i) {
        assert |t| == 0;
        assert StartsWithCI(s, t);
      }
    } else {
      ContainsCIIffOccurs(s[1..], t);
      if ContainsCI(s[1..], t) {
        var i :| OccursAt(s[1..], t, i);
        assert OccursAt(s, t, i + 1) by {
          forall k | 0 <= k < |t| ensures SameLetter(s[i + 1 + k], t[k]) {
            assert s[1..][i + k] == s[i + 1 + k];
          }
        }
      }
      if i :| OccursAt(s, t, i) {
        if i == 0 {
          assert StartsWithCI(s, t);
        } else {
          assert OccursAt(s[1..], t, i - 1) by {
            forall k | 0 <= k < |t| ensures SameLetter(s[1..][i - 1 + k], t[k]) {
              assert s[1..][i - 1 + k] == s[i + k];
            }
          }
        }
      }
    }
  }

  /** A string that literally holds `t` between `p` and `q` matches `t`. */
  lemma ContainsCIOfInfix(p: string, t: string, q: string)
    ensures ContainsCI(p + t + q, t)
  {
    var s := p + t + q;
    assert OccursAt(s, t, |p|) by {
      forall k | 0 <= k < |t| ensures SameLetter(s[|p| + k], t[k]) {
        assert s[|p| + k] == t[k];
      }
    }
    ContainsCIIffOccurs(s, t);
  }

  /** A token longer than the text never matches. */
  lemma {:induction false} ShorterNeverContains(s: string, t: string)
    requires |s| < |t|
    ensures !ContainsCI(s, t)
    decreases |s|
  {
    if |s| > 0 {
      ShorterNeverContains(s[1..], t);
    }
  }

  /** `a` and `b` spell the same text up to the case of their letters. */
  predicate SameUpToCase(a: string, b: string) {
    |a| == |b| && forall k :: 0 <= k < |a| ==> SameLetter(a[k], b[k])
  }

  /**
   * The `i` flag: changing the case of any letters of the text or of the
   * token does not change whether the token is found.
   */
  lemma {:induction false} ContainsCIIgnoresCase(s: string, s': string, t: string, t': string)
    requires SameUpToCase(s, s') && SameUpToCase(t, t')
    ensures ContainsCI(s, t) == ContainsCI(s', t')
    decreases |s|
  {
    assert StartsWithCI(s, t) == StartsWithCI(s', t') by {
      if StartsWithCI(s, t) {
        forall k | 0 <= k < |t'| ensures SameLetter(s'[k], t'[k]) {
          assert SameLetter(s[k], t[k]);
        }
      }
      if StartsWithCI(s', t') {
        forall k | 0 <= k < |t| ensures SameLetter(s[k], t[k]) {
          assert SameLetter(s'[k], t'[k]);
        }
      }
    }
    if |s| > 0 {
      assert SameUpToCase(s[1..], s'[1..]) by {
        forall k | 0 <= k < |s| - 1 ensures SameLetter(s[1..][k], s'[1..][k]) {
          assert SameLetter(s[k + 1], s'[k + 1]);
        }
      }
      ContainsCIIgnoresCase(s[1..], s'[1..], t, t');
    }
  }
}
