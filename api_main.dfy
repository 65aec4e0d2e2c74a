/** The boolean parser applied to environment settings such as USE_GPU and
    USE_8BIT when the API starts. */
module ApiMain {
  import opened PyText
  import opened PyValue

  /** The spellings `parse_bool` accepts as true, all lower-case. */
  const TrueWords: seq<string> := ["yes", "true", "t", "1"]

  /** `a` and `b` differ at most in the case of their letters. */
  predicate SameIgnoringCase(a: string, b: string)
  {
    |a| == |b| && forall k :: 0 <= k < |a| ==> LowerChar(a[k]) == LowerChar(b[k])
  }

  /** `parse_bool(value)`: a bool is returned as it is; a string is true exactly when
      it is one of the true words up to letter case; anything else is its truthiness. */
  function ParseBool(v: Value): (r: bool)
    ensures v.Bool? ==> r == v.b
    ensures v.Str? ==> (r <==> exists w | w in TrueWords :: SameIgnoringCase(v.s, w))
    ensures !v.Bool? && !v.Str? ==> r == Truthy(v)
  {
    match v
    case Bool(b) => b
    case Str(s) =>
      LowerMatchesTrueWord(s);
      Lower(s) in TrueWords
    case _ => Truthy(v)
  }

  /** Every true word is already lower case, so lower-casing `s` meets one of them
      exactly when `s` equals it up to letter case. */
  lemma LowerMatchesTrueWord(s: string)
    ensures Lower(s) in TrueWords <==> exists w | w in TrueWords :: SameIgnoringCase(s, w)
  {
    forall w | w in TrueWords
      ensures Lower(s) == w <==> SameIgnoringCase(s, w)
    {
      assert Lower(w) == w;
      if SameIgnoringCase(s, w) {
        assert forall k :: 0 <= k < |s| ==> Lower(s)[k] == w[k];
      }
    }
  }

  /** Parsing an already parsed value changes nothing. */
  lemma ParseBoolIdempotent(v: Value)
    ensures ParseBool(Bool(ParseBool(v))) == ParseBool(v)
  {
  }

  /** Letter case never matters: two strings that differ only in the case of
      their letters parse alike. */
  lemma ParseBoolIgnoresCase(s: string, t: string)
    requires SameIgnoringCase(s, t)
    ensures ParseBool(Str(s)) == ParseBool(Str(t))
  {
    assert Lower(s) == Lower(t) by {
      forall k | 0 <= k < |s|
        ensures Lower(s)[k] == Lower(t)[k]
      {
      }
    }
  }

  /** Only short strings read as true: the empty string and anything longer than
      the longest true word read as false. */
  lemma OnlyShortStringsAreTrue(s: string)
    requires ParseBool(Str(s))
    ensures 1 <= |s| <= 4
  {
    assert Lower(s) in TrueWords;
  }
}
