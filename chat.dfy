/**
  The chatbot's text helpers (apps.py:158-213): the keyword extractor
  `extract_crop_details`, the keyword responder `generate_fallback_response`
  and the front of `generate_gemini_response`, which normalises the question
  before asking the cached model and falls back to the keyword responder.
 */
module Chat {
  import opened Wrappers
  import opened Text
  import opened Tables

  // ---------------------------------------------------------------------
  // `re.search` over an alternation of words, with re.IGNORECASE
  // ---------------------------------------------------------------------

  /** Word `w` matches `s` at position `i`, ignoring letter case. */
  predicate MatchesAt(s: string, w: string, i: nat)
  {
    i + |w| <= |s| && Lower(s[i..i + |w|]) == Lower(w)
  }

  /** The first alternative, in pattern order, that matches at position `i`:
      the regular-expression engine tries the alternatives left to right. */
  function AltAt(s: string, alts: seq<string>, i: nat): (r: Option<nat>)
    ensures r.Some? ==> r.value < |alts| && MatchesAt(s, alts[r.value], i)
    ensures r.Some? ==> forall j {:trigger MatchesAt(s, alts[j], i)} :: 0 <= j < r.value ==> !MatchesAt(s, alts[j], i)
    ensures r.None? <==> forall j {:trigger MatchesAt(s, alts[j], i)} :: 0 <= j < |alts| ==> !MatchesAt(s, alts[j], i)
  {
    if alts == [] then None
    else if MatchesAt(s, alts[0], i) then Some(0)
    else match AltAt(s, alts[1..], i)
      case Some(k) => Some(k + 1)
      case None => None
  }

  /** `re.search` from position `i` on: the leftmost position at which some
      alternative matches, with the alternative chosen there. */
  function SearchFrom(s: string, alts: seq<string>, i: nat): (r: Option<(nat, nat)>)
    requires i <= |s| + 1
    ensures r.Some? ==> i <= r.value.0 <= |s| && AltAt(s, alts, r.value.0) == Some(r.value.1)
    ensures r.Some? ==> forall q: nat :: i <= q < r.value.0 ==> AltAt(s, alts, q).None?
    ensures r.None? <==> forall q: nat :: i <= q <= |s| ==> AltAt(s, alts, q).None?
    decreases |s| + 1 - i
  {
    if i > |s| then None
    else
      var here := AltAt(s, alts, i);
      if here.Some? then Some((i, here.value))
      else
        var r := SearchFrom(s, alts, i + 1);
        assert forall q: nat :: i <= q < i + 1 ==> AltAt(s, alts, q).None? by {
          forall q: nat | i <= q < i + 1 ensures AltAt(s, alts, q).None? {
            assert q == i;
          }
        }
        r
  }

  /** `re.search(r"(a|b|...)", s, re.IGNORECASE).group(1)`, or `None`: the
      text of `s` the leftmost match covers, in the letter case of `s`. It
      is the piece of `s` at the leftmost match position, equal to the
      alternative chosen there once letter case is ignored. */
  function SearchWord(s: string, alts: seq<string>): (r: Option<string>)
    ensures r.Some? <==> SearchFrom(s, alts, 0).Some?
    ensures r.Some? ==>
      var (p, k) := SearchFrom(s, alts, 0).value;
      k < |alts| && OccursAt(s, r.value, p) && Lower(r.value) == Lower(alts[k])
  {
    match SearchFrom(s, alts, 0)
    case None => None
    case Some((p, k)) => Some(s[p..p + |alts[k]|])
  }

  /** The search finds something exactly when some alternative matches
      somewhere in `s`. */
  lemma SearchWordFound(s: string, alts: seq<string>)
    ensures SearchWord(s, alts).Some? <==> exists q: nat :: q <= |s| && AltAt(s, alts, q).Some?
  {
    var found := SearchFrom(s, alts, 0);
    if found.Some? {
      assert AltAt(s, alts, found.value.0).Some?;
    }
  }

  /** The location alternatives of apps.py:159, in pattern order. */
  const LocationPattern: seq<string> := ["Mangalore", "Udupi", "Raichur", "Gulbarga", "Mysuru", "Hassan", "Kasaragodu"]

  /** The soil alternatives of apps.py:160, in pattern order. */
  const SoilPattern: seq<string> := ["Alluvial", "Loam", "Laterite", "Sandy", "Red", "Black", "Sandy Loam", "Clay"]

  // ---------------------------------------------------------------------
  // The area: `(\d+(\.\d+)?)\s*(acre|acres)?`
  // ---------------------------------------------------------------------

  predicate IsDigit(c: char)
  {
    '0' <= c <= '9'
  }

  /** The end of the run of digits that starts at `i`. */
  function DigitRunEnd(s: string, i: nat): (j: nat)
    requires i <= |s|
    ensures i <= j <= |s|
    ensures forall k :: i <= k < j ==> IsDigit(s[k])
    ensures j < |s| ==> !IsDigit(s[j])
    decreases |s| - i
  {
    if i < |s| && IsDigit(s[i]) then DigitRunEnd(s, i + 1) else i
  }

  /** The end of `\d+(\.\d+)?` matched greedily from a digit at `i`: the
      digit run, then a point and a second digit run when a digit follows
      the point. */
  function NumberEnd(s: string, i: nat): (j: nat)
    requires i < |s| && IsDigit(s[i])
    ensures i < j <= |s|
  {
    var e := DigitRunEnd(s, i);
    if e + 1 < |s| && s[e] == '.' && IsDigit(s[e + 1]) then DigitRunEnd(s, e + 1) else e
  }

  /** A numeral as the area group matches it: digits, optionally followed
      by a point and more digits. */
  predicate IsNumeral(a: string)
  {
    exists n: nat :: n <= |a| && NumeralSplit(a, n)
  }

  /** `a` is `n` digits, optionally followed by a point and more digits. */
  predicate NumeralSplit(a: string, n: nat)
  {
    0 < n <= |a|
    && (forall k :: 0 <= k < n ==> IsDigit(a[k]))
    && (n == |a| || (n + 1 < |a| && a[n] == '.' && forall k :: n < k < |a| ==> IsDigit(a[k])))
  }

  /** The leftmost digit at or after `i`. */
  function FirstDigit(s: string, i: nat): (r: Option<nat>)
    requires i <= |s|
    ensures r.Some? ==> i <= r.value < |s| && IsDigit(s[r.value])
    ensures r.Some? ==> forall q :: i <= q < r.value ==> !IsDigit(s[q])
    ensures r.None? <==> forall q :: i <= q < |s| ==> !IsDigit(s[q])
    decreases |s| - i
  {
    if i == |s| then None
    else if IsDigit(s[i]) then Some(i)
    else FirstDigit(s, i + 1)
  }

  /** The area group: everything after the number is optional, so the
      pattern matches exactly when the query holds a digit, and then at the
      leftmost digit, taking as many digits as there are and a fraction
      whenever a point followed by a digit comes next. */
  function SearchArea(s: string): (r: Option<string>)
    ensures r.None? <==> forall q :: 0 <= q < |s| ==> !IsDigit(s[q])
    ensures r.Some? ==> IsNumeral(r.value)
    ensures r.Some? ==>
      exists p: nat :: (p < |s| && OccursAt(s, r.value, p)
        && (forall q :: 0 <= q < p ==> !IsDigit(s[q]))
        && (p + |r.value| < |s| ==> !IsDigit(s[p + |r.value|]))
        && ('.' !in r.value && p + |r.value| + 1 < |s| && s[p + |r.value|] == '.'
            ==> !IsDigit(s[p + |r.value| + 1])))
  {
    match FirstDigit(s, 0)
    case None => None
    case Some(p) =>
      var e := DigitRunEnd(s, p);
      var j := NumberEnd(s, p);
      var a := s[p..j];
      assert OccursAt(s, a, p);
      var n: nat := e - p;
      assert NumeralSplit(a, n);
      Some(a)
  }

  /** `extract_crop_details(query)`: `(location, area, soil)` when all three
      patterns match, otherwise three `None`s. */
  function ExtractCropDetails(query: string): (r: (Option<string>, Option<string>, Option<string>))
    ensures r.0.Some? == r.1.Some? == r.2.Some?
    ensures r.0.Some? <==>
      SearchWord(query, LocationPattern).Some? && SearchWord(query, SoilPattern).Some?
      && SearchArea(query).Some?
    ensures r.0.Some? ==>
      r == (SearchWord(query, LocationPattern), SearchArea(query), SearchWord(query, SoilPattern))
  {
    var location := SearchWord(query, LocationPattern);
    var soil := SearchWord(query, SoilPattern);
    var area := SearchArea(query);
    if location.Some? && soil.Some? && area.Some? then (location, area, soil)
    else (None, None, None)
  }

  /** The extracted location and soil are pieces of the query itself, each
      equal to a listed name once letter case is ignored. */
  lemma ExtractedNamesAreListed(query: string)
    requires ExtractCropDetails(query).0.Some?
    ensures var r := ExtractCropDetails(query);
      (exists k :: 0 <= k < |LocationPattern| && Lower(r.0.value) == Lower(LocationPattern[k]))
      && (exists k :: 0 <= k < |SoilPattern| && Lower(r.2.value) == Lower(SoilPattern[k]))
      && (exists q: nat :: q <= |query| && OccursAt(query, r.0.value, q))
      && (exists q: nat :: q <= |query| && OccursAt(query, r.2.value, q))
  {
  }

  /** Lower-casing a prefix is the prefix of the lower-cased string. */
  lemma LowerPrefix(s: string, n: nat)
    requires n <= |s|
    ensures Lower(s[..n]) == Lower(s)[..n]
  {
  }

  /** Wherever "Sandy Loam" matches, "Sandy" matches too. */
  lemma SandyLoamStartsWithSandy(s: string, i: nat)
    requires MatchesAt(s, "Sandy Loam", i)
    ensures MatchesAt(s, "Sandy", i)
  {
    var w := s[i..i + 10];
    LowerPrefix(w, 5);
    LowerPrefix("Sandy Loam", 5);
    assert "Sandy Loam"[..5] == "Sandy";
    assert w[..5] == s[i..i + 5];
  }

  /** The alternative "Sandy Loam" is never the one chosen: "Sandy", three
      places earlier, matches wherever it does. */
  lemma SandyLoamNeverChosen(s: string, p: nat)
    ensures AltAt(s, SoilPattern, p) != Some(6)
  {
    if AltAt(s, SoilPattern, p) == Some(6) {
      assert SoilPattern[6] == "Sandy Loam" && SoilPattern[3] == "Sandy";
      SandyLoamStartsWithSandy(s, p);
      assert false;
    }
  }

  /** Every soil alternative but "Sandy Loam" is shorter or longer than it. */
  lemma OtherSoilLengths(k: nat)
    requires k < |SoilPattern| && k != 6
    ensures |SoilPattern[k]| != |"Sandy Loam"|
  {
  }

  /** "Sandy" comes before "Sandy Loam" in the soil pattern, so the soil
      found is never "Sandy Loam", in any letter case. */
  lemma SoilNeverSandyLoam(query: string)
    ensures SearchWord(query, SoilPattern).Some? ==>
      Lower(SearchWord(query, SoilPattern).value) != Lower("Sandy Loam")
  {
    var r := SearchWord(query, SoilPattern);
    if r.Some? {
      var (p, k) := SearchFrom(query, SoilPattern, 0).value;
      SandyLoamNeverChosen(query, p);
      OtherSoilLengths(k);
      assert |Lower(r.value)| == |Lower(SoilPattern[k])| == |SoilPattern[k]|;
    }
  }

  // ---------------------------------------------------------------------
  // The keyword responder and the normalised model question
  // ---------------------------------------------------------------------

  /** The keyword replies of `generate_fallback_response`, in listing order. */
  const Responses: Table := [
    ("hello", "Hello! How can I help you with agriculture today?"),
    ("hi", "Hi there! What agricultural information do you need?"),
    ("bye", "Goodbye! Happy farming!"),
    ("crop suggestion", "For crop suggestions, please tell me your location, soil type, and land area."),
    ("plant disease", "For plant disease detection, please upload an image of the affected plant."),
    ("fertilizer", "I can suggest fertilizers based on your soil type and crop."),
    ("weather", "Check local weather forecasts for accurate information."),
    ("market price", "Market prices vary daily. Check your nearest agricultural market."),
    ("thank you", "You're welcome! Is there anything else I can help with?")
  ]

  /** The reply when no keyword occurs. */
  const DefaultReply: string :=
    "I'm an agriculture chatbot. I can help with crop suggestions, plant diseases, fertilizers, and more. Please ask specific questions."

  /** `generate_fallback_response(user_input)`: the reply of the first
      keyword, in listing order, that occurs in the lower-cased input (as a
      substring, not necessarily a whole word), else the default reply. */
  function FallbackResponse(input: string): (r: string)
    ensures forall i ::
              0 <= i < |Responses| && Contains(Lower(input), Responses[i].0)
              && (forall j :: 0 <= j < i ==> !Contains(Lower(input), Responses[j].0))
              ==> r == Responses[i].1
    ensures (forall j :: 0 <= j < |Responses| ==> !Contains(Lower(input), Responses[j].0)) ==> r == DefaultReply
  {
    match ContainedKeyIndex(Responses, Lower(input))
    case Some(i) => Responses[i].1
    case None => DefaultReply
  }

  /** The reply for an empty question. */
  const EmptyInputReply: string := "Please provide some input."

  /** `generate_gemini_response(user_input, language)`. `ask` stands for
      `cached_gemini_response`: the model's stripped answer for a prompt and a
      language, or `None` when the call fails or gives no text. The model is
      asked the normalised question; an absent or empty answer falls back to
      the keyword responder on the question as typed. */
  function GeminiResponse(input: string, language: string,
                          ask: (string, string) -> Option<string>): (r: string)
    ensures input == [] ==> r == EmptyInputReply
    ensures input != [] && ask(Normalize(input), language).Some? && ask(Normalize(input), language).value != []
      ==> r == ask(Normalize(input), language).value
    ensures input != [] && (ask(Normalize(input), language).None? || ask(Normalize(input), language).value == [])
      ==> r == FallbackResponse(input)
  {
    if input == [] then EmptyInputReply
    else
      var normalized := Normalize(input);
      var cached := ask(normalized, language);
      if cached.Some? && cached.value != [] then cached.value
      else FallbackResponse(input)
  }

  /** Two questions that differ only in spacing put the same question to
      the model, so a model answer for one is the answer for both. */
  lemma SpacingDoesNotChangeTheQuestion(a: string, b: string, language: string,
                                        ask: (string, string) -> Option<string>)
    requires a != [] && b != [] && Normalize(a) == Normalize(b)
    requires ask(Normalize(a), language).Some? && ask(Normalize(a), language).value != []
    ensures GeminiResponse(a, language, ask) == GeminiResponse(b, language, ask)
  {
  }

  /** Normalising the question a second time changes nothing: the model is
      asked the same question however often the input is normalised. */
  lemma QuestionNormalizedOnce(input: string)
    ensures Normalize(Normalize(input)) == Normalize(input)
  {
    NormalizeIdempotent(input);
  }
}
