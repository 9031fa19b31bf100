/**
 * How the backend tells a provider's rate-limit failure from any other failure: by looking
 * for `quota` in the lower-cased error text or `429` in the raw error text.  The same test
 * appears in the retry wrapper and in both request handlers.
 */
module RateLimit {
  import opened Text

  /** An HTTP error raised towards the client: a status code and a detail text. */
  datatype HttpException = HttpException(statusCode: int, detail: string)

  /** The fixed user-facing text sent with every 429. */
  // written in two halves only so that facts about its characters can be proved one half at a time
  const RateLimitDetail := RateLimitHead + RateLimitTail
  const RateLimitHead := "API rate limit exceeded. "
  const RateLimitTail := "Please try again in a few minutes."

  /** `"quota" in str(e).lower() or "429" in str(e)`, where `msg` is `str(e)`. */
  predicate IsRateLimit(msg: string)
  {
    Contains(Lower(msg), "quota") || Contains(msg, "429")
  }

  /** The rate-limit test in terms of positions: `quota` at some index of the lower-cased
      text, or `429` at some index of the raw text. */
  lemma RateLimitIff(msg: string)
    ensures IsRateLimit(msg) <==>
      (exists i :: OccursAt(Lower(msg), "quota", i)) || (exists i :: OccursAt(msg, "429", i))
  {
    ContainsIff(Lower(msg), "quota");
    ContainsIff(msg, "429");
    if IsRateLimit(msg) {
      assert Contains(Lower(msg), "quota") || Contains(msg, "429");
    } else {
      assert !Contains(Lower(msg), "quota") && !Contains(msg, "429");
    }
  }

  /** Lower-casing commutes with taking a slice. */
  lemma LowerSlice(s: string, i: int, j: int)
    requires 0 <= i <= j <= |s|
    ensures Lower(s[i..j]) == Lower(s)[i..j]
  {
    var w := s[i..j];
    var a, b := Lower(w), Lower(s)[i..j];
    forall k | 0 <= k < j - i
      ensures a[k] == b[k]
    {
      assert w[k] == s[i + k];
    }
  }

  /** Any spelling of `quota` (`QUOTA`, `Quota`, ...) anywhere in the text marks a rate limit. */
  lemma QuotaInAnyCase(msg: string, i: nat)
    requires i + 5 <= |msg|
    requires Lower(msg[i..i + 5]) == "quota"
    ensures IsRateLimit(msg)
  {
    LowerSlice(msg, i, i + 5);
    assert OccursAt(Lower(msg), "quota", i);
    RateLimitIff(msg);
  }

  /** `429` is searched for in the raw text, but digits have no case: lower-casing the text
      first never changes whether it contains `429`. */
  lemma DigitsIgnoreCase(msg: string, i: int)
    ensures OccursAt(Lower(msg), "429", i) <==> OccursAt(msg, "429", i)
  {
    if 0 <= i && i + 3 <= |msg| {
      LowerSlice(msg, i, i + 3);
      var w := msg[i..i + 3];
      assert Lower(w) == "429" <==> w == "429" by {
        if Lower(w) == "429" {
          assert ToLowerChar(w[0]) == '4' && ToLowerChar(w[1]) == '2' && ToLowerChar(w[2]) == '9';
        }
      }
    }
  }

  /** The whole test is case-insensitive: classifying the lower-cased text gives the same answer. */
  lemma {:induction false} IsRateLimitCaseInsensitive(msg: string)
    ensures IsRateLimit(Lower(msg)) == IsRateLimit(msg)
  {
    var l := Lower(msg);
    assert Lower(l) == l;
    ContainsIff(l, "429");
    ContainsIff(msg, "429");
    forall i ensures OccursAt(l, "429", i) <==> OccursAt(msg, "429", i) {
      DigitsIgnoreCase(msg, i);
    }
  }

  /** An example in the style of the provider's quota errors, in upper case. */
  lemma UpperCaseQuotaExample()
    ensures IsRateLimit("Resource exhausted: QUOTA")
  {
    QuotaInAnyCase("Resource exhausted: QUOTA", 20);
  }

  /** A text with no `q`, `Q` or `4` in it is not a rate-limit message. */
  lemma NotRateLimitWithout(r: string)
    requires LacksQuotaAnd4(r)
    ensures !IsRateLimit(r)
  {
    var l := Lower(r);
    forall i | 0 <= i < |r|
      ensures l[i] != 'q' && r[i] != '4'
    {
      assert r[i] in r;
    }
    forall i
      ensures !OccursAt(l, "quota", i) && !OccursAt(r, "429", i)
    {
      if 0 <= i && i + 5 <= |l| {
        assert l[i..i + 5][0] == l[i];
      }
      if 0 <= i && i + 3 <= |r| {
        assert r[i..i + 3][0] == r[i];
      }
    }
    RateLimitIff(r);
  }

  /** No `q`, `Q` or `4` in `s`. */
  predicate LacksQuotaAnd4(s: string)
  {
    'q' !in s && 'Q' !in s && '4' !in s
  }

  lemma RateLimitHeadLetters()
    ensures LacksQuotaAnd4(RateLimitHead)
  {
  }

  lemma RateLimitTailLetters()
    ensures LacksQuotaAnd4(RateLimitTail)
  {
  }

  /** The fixed 429 text contains no `q`, `Q` or `4`. */
  lemma RateLimitDetailLetters()
    ensures LacksQuotaAnd4(RateLimitDetail)
  {
    RateLimitHeadLetters();
    RateLimitTailLetters();
  }

  /** The fixed 429 text is not itself a rate-limit message. */
  lemma RateLimitDetailNotRateLimited()
    ensures !IsRateLimit(RateLimitDetail)
  {
    RateLimitDetailLetters();
    NotRateLimitWithout(RateLimitDetail);
  }

  /**
   * The handlers' `except` classification of a plain exception with text `msg`: 429 exactly
   * when `quota` occurs in the lower-cased text or `429` in the raw text, and then with the
   * fixed text, which is never the provider's own text; any other failure becomes 500
   * carrying `msg` unchanged.
   */
  function ClassifyFailure(msg: string): (e: HttpException)
    ensures e.statusCode == 429 <==>
      (exists i :: OccursAt(Lower(msg), "quota", i)) || (exists i :: OccursAt(msg, "429", i))
    ensures e.statusCode == 429 ==> e.detail == RateLimitDetail && e.detail != msg
    ensures e.statusCode != 429 ==> e == HttpException(500, msg)
  {
    RateLimitIff(msg);
    RateLimitDetailNotRateLimited();
    if IsRateLimit(msg) then HttpException(429, RateLimitDetail) else HttpException(500, msg)
  }
}
