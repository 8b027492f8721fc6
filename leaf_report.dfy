/**
  The leaf-disease section of the bilingual page (app.py:514-568): after the
  prediction, the page builds the sentence read out by the voice output,
  the precaution text for the results e-mail and the messages it shows, in
  English or Kannada.
 */
module LeafReport {
  import opened Wrappers
  import opened Text
  import opened Tables
  import opened Translation
  import opened Advice
  import Frontend

  /** The tables the section reads: `translations` (what `translate_text`
      looks phrases up in), `precautions` (`precautions_dict`) and
      `precautionsKn` (`precautions_dict_kn`). */
  datatype PageTables = PageTables(translations: Table, precautions: Table, precautionsKn: Table)

  /** The tables of the page. */
  const Page: PageTables := PageTables(TranslationsKn, PrecautionsEn, PrecautionsKn)

  /** What the section produces: the spoken sentence (`result_text`), the
      precaution or advice put in the e-mail (`precaution_text`, not set on
      the healthy branch) and the messages shown, in order. */
  datatype Report = Report(resultText: string, precaution: Option<string>, shown: seq<Display>)

  const HealthyBannerKn: string := "\U{2705} ಎಲೆ ಆರೋಗ್ಯಕರವಾಗಿ ಕಾಣುತ್ತದೆ! ಯಾವುದೇ ಕ್ರಮ ಅಗತ್ಯವಿಲ್ಲ."
  const DiseaseBannerKn: string := "\U{26A0}\U{FE0F} ಎಲೆ ರೋಗದಿಂದ ಪೀಡಿತವಾಗಿದೆ ಎಂದು ತೋರುತ್ತದೆ."
  const GeneralAdviceKn: string := "ಸಾಮಾನ್ಯ ಸಲಹೆ: ಸೋಂಕು ಹರಡಿದ ಭಾಗಗಳನ್ನು ತೆಗೆದುಹಾಕಿ, ಪೀಡಿತ ಸಸ್ಯಗಳನ್ನು ಪ್ರತ್ಯೇಕಿಸಿ ಮತ್ತು ಕೃಷಿ ತಜ್ಞರನ್ನು ಸಂಪರ್ಕಿಸಿ."

  /** The spoken sentence for a healthy leaf; `confidence` is the
      confidence already rendered with two decimals. */
  function HealthyResult(language: Language, confidence: string): string
  {
    if language == English then
      "The leaf looks healthy with " + confidence + " percent confidence. No action needed."
    else
      "ಎಲೆ " + confidence + " ಶೇಕಡಾ ವಿಶ್ವಾಸದೊಂದಿಗೆ ಆರೋಗ್ಯಕರವಾಗಿ ಕಾಣುತ್ತದೆ. ಯಾವುದೇ ಕ್ರಮ ಅಗತ್ಯವಿಲ್ಲ."
  }

  /** The opening of the spoken sentence for a diseased leaf. */
  function DiseaseResult(language: Language, displayClass: string, confidence: string): string
  {
    if language == English then
      "The leaf appears to be affected by " + displayClass + " with " + confidence + " percent confidence."
    else
      "ಎಲೆ " + displayClass + " ನಿಂದ " + confidence + " ಶೇಕಡಾ ವಿಶ್ವಾಸದೊಂದಿಗೆ ಪೀಡಿತವಾಗಿದೆ ಎಂದು ತೋರುತ್ತದೆ."
  }

  /** The words in front of a precaution appended to the spoken sentence. */
  function PrecautionMarker(language: Language): string
  {
    if language == English then " Recommended precautions: " else " ಶಿಫಾರಸು ಮಾಡಿದ ಮುಂಜಾಗ್ರತೆಗಳು: "
  }

  /** The English words in front of a precaution heading, translated by the page. */
  const PrecautionFor: string := "Precaution for"

  /** The general advice in the page's language. */
  function GeneralAdviceText(language: Language): string
  {
    if language == English then GeneralAdviceEn else GeneralAdviceKn
  }

  /** The class name as the page shows it (app.py:507): the Kannada disease
      name in Kannada, otherwise the class with every `_` made a space. */
  function DisplayClass(language: Language, predictedClass: string): string
  {
    if language == Kannada then KannadaDiseaseName(predictedClass)
    else ReplaceChar(predictedClass, '_', ' ')
  }

  /** The precaution for the i-th key of `precautions_dict`: its English
      text, or in Kannada `precautions_dict_kn.get(key, english)`, which falls
      back to the English text for a key the Kannada table lacks (see
      `Tables.GetOrSpec`). */
  function PrecautionText(tables: PageTables, language: Language, i: nat): string
    requires i < |tables.precautions|
  {
    if language == English then tables.precautions[i].1
    else GetOr(tables.precautionsKn, tables.precautions[i].0, tables.precautions[i].1)
  }

  /** The heading above a precaution: `title` ("Precaution for" in the
      page's language), then the displayed class. */
  function PrecautionHeading(title: string, displayClass: string): string
  {
    "### " + Stethoscope + title + " *" + displayClass + "*"
  }

  /** What the section produces for a predicted class. */
  function Expected(tables: PageTables, language: Language, predictedClass: string, displayClass: string,
                    confidence: string): Report
  {
    var banner := if language == English then DiseaseBanner else DiseaseBannerKn;
    match Diagnose(tables.precautions, predictedClass)
    case Healthy =>
      Report(HealthyResult(language, confidence), None,
             [Success(if language == English then HealthyBanner else HealthyBannerKn)])
    case Precaution(i) =>
      var p := PrecautionText(tables, language, i);
      Report(DiseaseResult(language, displayClass, confidence) + PrecautionMarker(language) + p, Some(p),
             [Failure(banner), Heading(PrecautionHeading(Translate(tables.translations, language, PrecautionFor), displayClass)),
              Warning(p)])
    case GeneralAdvice =>
      var a := GeneralAdviceText(language);
      Report(DiseaseResult(language, displayClass, confidence) + (" " + a), Some(a),
             [Failure(banner), Info(Magnifier + a)])
  }

  /** The code of app.py:514-568: the healthy test, then the loop over
      `precautions_dict` with its `matched` flag, `break` and `result_text +=`,
      then the flag test. The page passes `Page` for `tables`. */
  method BuildReport(tables: PageTables, language: Language, predictedClass: string, displayClass: string, confidence: string)
    returns (resultText: string, precaution: Option<string>, shown: seq<Display>)
    ensures Report(resultText, precaution, shown) == Expected(tables, language, predictedClass, displayClass, confidence)
  {
    if Contains(Lower(predictedClass), "healthy") {
      ExpectedHealthy(tables, language, predictedClass, displayClass, confidence);
      resultText := HealthyResult(language, confidence);
      if language == English {
        shown := [Success(HealthyBanner)];
      } else {
        shown := [Success(HealthyBannerKn)];
      }
      precaution := None;
      return;
    }
    resultText := DiseaseResult(language, displayClass, confidence);
    if language == English {
      shown := [Failure(DiseaseBanner)];
    } else {
      shown := [Failure(DiseaseBannerKn)];
    }
    ghost var opening := resultText;
    ghost var banner := shown;
    var key := MatchKey(predictedClass);
    var matched := false;
    precaution := Some("");
    var i := 0;
    while i < |tables.precautions|
      invariant 0 <= i <= |tables.precautions|
      invariant !matched && resultText == opening && shown == banner && precaution == Some("")
      invariant forall j :: 0 <= j < i ==> !Contains(key, tables.precautions[j].0)
    {
      if Contains(key, tables.precautions[i].0) {
        var title := Translate(tables.translations, language, PrecautionFor);
        shown := shown + [Heading(PrecautionHeading(title, displayClass))];
        var text;
        if language == English {
          text := tables.precautions[i].1;
        } else {
          text := GetOr(tables.precautionsKn, tables.precautions[i].0, tables.precautions[i].1);
        }
        resultText := resultText + PrecautionMarker(language) + text;
        shown := shown + [Warning(text)];
        precaution := Some(text);
        assert text == PrecautionText(tables, language, i);
        ExpectedFirstKey(tables, language, predictedClass, displayClass, confidence, i);
        matched := true;
        break;
      }
      i := i + 1;
    }
    if !matched {
      ExpectedNoKey(tables, language, predictedClass, displayClass, confidence);
      var advice := GeneralAdviceText(language);
      shown := shown + [Info(Magnifier + advice)];
      precaution := Some(advice);
      resultText := resultText + (" " + advice);
    }
  }

  /** The report for a class that looks healthy. */
  lemma ExpectedHealthy(tables: PageTables, language: Language, predictedClass: string,
                        displayClass: string, confidence: string)
    requires LooksHealthy(predictedClass)
    ensures Expected(tables, language, predictedClass, displayClass, confidence)
      == Report(HealthyResult(language, confidence), None,
                [Success(if language == English then HealthyBanner else HealthyBannerKn)])
  {
    assert Diagnose(tables.precautions, predictedClass) == Healthy;
  }

  /** The report when the i-th key is the first to occur in the match key. */
  lemma ExpectedFirstKey(tables: PageTables, language: Language, predictedClass: string,
                         displayClass: string, confidence: string, i: nat)
    requires !LooksHealthy(predictedClass)
    requires i < |tables.precautions| && Contains(MatchKey(predictedClass), tables.precautions[i].0)
    requires forall j :: 0 <= j < i ==> !Contains(MatchKey(predictedClass), tables.precautions[j].0)
    ensures
      var p := PrecautionText(tables, language, i);
      Expected(tables, language, predictedClass, displayClass, confidence)
      == Report(DiseaseResult(language, displayClass, confidence) + PrecautionMarker(language) + p, Some(p),
                [Failure(if language == English then DiseaseBanner else DiseaseBannerKn),
                 Heading(PrecautionHeading(Translate(tables.translations, language, PrecautionFor), displayClass)),
                 Warning(p)])
  {
    DiagnoseFirstKey(tables.precautions, predictedClass, i);
  }

  /** The report when no key occurs in the match key. */
  lemma ExpectedNoKey(tables: PageTables, language: Language, predictedClass: string,
                      displayClass: string, confidence: string)
    requires !LooksHealthy(predictedClass)
    requires forall j :: 0 <= j < |tables.precautions| ==> !Contains(MatchKey(predictedClass), tables.precautions[j].0)
    ensures
      var a := GeneralAdviceText(language);
      Expected(tables, language, predictedClass, displayClass, confidence)
      == Report(DiseaseResult(language, displayClass, confidence) + (" " + a), Some(a),
                [Failure(if language == English then DiseaseBanner else DiseaseBannerKn), Info(Magnifier + a)])
  {
    assert Diagnose(tables.precautions, predictedClass) == GeneralAdvice;
  }

  /** A class mentioning "healthy" in any letter case gets the healthy
      sentence and banner only: no precaution is looked up, none is shown and
      none goes into the e-mail. */
  lemma HealthyReport(tables: PageTables, language: Language, predictedClass: string,
                      displayClass: string, confidence: string)
    requires LooksHealthy(predictedClass)
    ensures var r := Expected(tables, language, predictedClass, displayClass, confidence);
      r.precaution == None && r.resultText == HealthyResult(language, confidence)
      && |r.shown| == 1 && r.shown[0].Success? && Warnings(r.shown) == [] && Infos(r.shown) == []
  {
    ExpectedHealthy(tables, language, predictedClass, displayClass, confidence);
    var shown := [Success(if language == English then HealthyBanner else HealthyBannerKn)];
    assert Warnings(shown) == [] && Infos(shown) == [];
  }

  /** When the i-th key is the first, in table order, to occur in the match
      key of a class that is not healthy, its precaution (in the page's
      language) is the one chosen, shown exactly once, and the spoken
      sentence ends with it. */
  lemma ReportFirstKeyWins(tables: PageTables, language: Language, predictedClass: string,
                           displayClass: string, confidence: string, i: nat)
    requires !LooksHealthy(predictedClass)
    requires i < |tables.precautions| && Contains(MatchKey(predictedClass), tables.precautions[i].0)
    requires forall j :: 0 <= j < i ==> !Contains(MatchKey(predictedClass), tables.precautions[j].0)
    ensures var r := Expected(tables, language, predictedClass, displayClass, confidence);
      r.precaution == Some(PrecautionText(tables, language, i))
      && Warnings(r.shown) == [PrecautionText(tables, language, i)] && Infos(r.shown) == []
      && EndsWith(r.resultText, PrecautionText(tables, language, i))
  {
    ExpectedFirstKey(tables, language, predictedClass, displayClass, confidence, i);
    var p := PrecautionText(tables, language, i);
    EndsWithConcat(DiseaseResult(language, displayClass, confidence) + PrecautionMarker(language), p);
    PrecautionMessages(if language == English then DiseaseBanner else DiseaseBannerKn,
                       PrecautionHeading(Translate(tables.translations, language, PrecautionFor), displayClass), p);
  }

  /** A class that is not healthy and matches no key gets the general advice
      of the page's language, shown exactly once, and no precaution; the
      spoken sentence ends with the advice. */
  lemma ReportGeneralAdvice(tables: PageTables, language: Language, predictedClass: string,
                            displayClass: string, confidence: string)
    requires !LooksHealthy(predictedClass)
    requires forall j :: 0 <= j < |tables.precautions| ==> !Contains(MatchKey(predictedClass), tables.precautions[j].0)
    ensures var r := Expected(tables, language, predictedClass, displayClass, confidence);
      r.precaution == Some(GeneralAdviceText(language))
      && Infos(r.shown) == [Magnifier + GeneralAdviceText(language)] && Warnings(r.shown) == []
      && EndsWith(r.resultText, " " + GeneralAdviceText(language))
  {
    ExpectedNoKey(tables, language, predictedClass, displayClass, confidence);
    EndsWithConcat(DiseaseResult(language, displayClass, confidence), " " + GeneralAdviceText(language));
    AdviceMessages(if language == English then DiseaseBanner else DiseaseBannerKn,
                   Magnifier + GeneralAdviceText(language));
  }

  /** The Kannada table has a key at every position of the English one,
      the same key, and the English keys are distinct. */
  predicate Aligned(en: Table, kn: Table)
  {
    |en| <= |kn|
    && (forall i :: 0 <= i < |en| ==> kn[i].0 == en[i].0)
    && (forall i, j :: 0 <= j < i < |en| ==> en[j].0 != en[i].0)
  }

  /** With aligned tables the English fallback of the Kannada precaution is
      never taken: the Kannada text at the same position is shown. */
  lemma AlignedPrecautionText(tables: PageTables, i: nat)
    requires Aligned(tables.precautions, tables.precautionsKn)
    requires i < |tables.precautions|
    ensures PrecautionText(tables, Kannada, i) == tables.precautionsKn[i].1
  {
    var k := tables.precautions[i].0;
    assert FirstKeyAt(tables.precautionsKn, k, i);
    FirstKeyUnique(tables.precautionsKn, k, i);
  }

  /** The page's two precaution tables are aligned. */
  lemma KannadaPrecautionsAligned()
    ensures Aligned(PrecautionsEn, PrecautionsKn)
  {
    SameKeys();
    DistinctKeys();
  }

  lemma SameKeys()
    ensures |PrecautionsEn| <= |PrecautionsKn|
    ensures forall i :: 0 <= i < |PrecautionsEn| ==> PrecautionsKn[i].0 == PrecautionsEn[i].0
  {
  }

  lemma DistinctKeys()
    ensures forall i, j :: 0 <= j < i < |PrecautionsEn| ==> PrecautionsEn[j].0 != PrecautionsEn[i].0
  {
  }

  /** In English, for a class without underscores, the bilingual page shows
      exactly what the stand-alone detector shows with the same precaution
      table. */
  lemma EnglishReportMatchesDetector(tables: PageTables, predictedClass: string, confidence: string)
    requires forall k :: 0 <= k < |predictedClass| ==> predictedClass[k] != '_'
    ensures Expected(tables, English, predictedClass, DisplayClass(English, predictedClass), confidence).shown
         == Frontend.Shown(tables.precautions, predictedClass)
  {
    assert DisplayClass(English, predictedClass) == predictedClass;
    assert PrecautionHeading(PrecautionFor, predictedClass) == Frontend.PrecautionHeading(predictedClass);
  }

  /** The English page's messages, case by case, next to the detector's. */
  lemma EnglishShownCases(tables: PageTables, predictedClass: string, confidence: string)
    ensures var a := Expected(tables, English, predictedClass, ReplaceChar(predictedClass, '_', ' '), confidence).shown;
      var b := Frontend.Shown(tables.precautions, predictedClass);
      match Diagnose(tables.precautions, predictedClass)
      case Precaution(i) =>
        a == [Failure(DiseaseBanner), Heading(Frontend.PrecautionHeading(ReplaceChar(predictedClass, '_', ' '))),
              Warning(tables.precautions[i].1)]
        && b == [Failure(DiseaseBanner), Heading(Frontend.PrecautionHeading(predictedClass)),
                 Warning(tables.precautions[i].1)]
      case _ => a == b
  {
    var dc := ReplaceChar(predictedClass, '_', ' ');
    assert Translate(tables.translations, English, PrecautionFor) == PrecautionFor;
    assert PrecautionHeading(PrecautionFor, dc) == Frontend.PrecautionHeading(dc);
  }

  /** In English, for every class, the bilingual page (which shows the class
      with each `_` made a space, app.py:507) shows the messages the
      stand-alone detector shows, in the same order, except that a precaution
      heading names the class so: the same warning, the same advice, the same
      banners. */
  lemma EnglishReportSameAdvice(tables: PageTables, predictedClass: string, confidence: string)
    ensures var a := Expected(tables, English, predictedClass, ReplaceChar(predictedClass, '_', ' '), confidence).shown;
      var b := Frontend.Shown(tables.precautions, predictedClass);
      |a| == |b|
      && (forall k :: 0 <= k < |a| && !a[k].Heading? ==> a[k] == b[k])
      && (forall k :: 0 <= k < |a| && a[k].Heading? ==>
            b[k] == Heading(Frontend.PrecautionHeading(predictedClass))
            && a[k] == Heading(Frontend.PrecautionHeading(ReplaceChar(predictedClass, '_', ' '))))
      && Warnings(a) == Warnings(b) && Infos(a) == Infos(b)
  {
    EnglishShownCases(tables, predictedClass, confidence);
    var dc := ReplaceChar(predictedClass, '_', ' ');
    match Diagnose(tables.precautions, predictedClass)
    case Precaution(i) =>
      var p := tables.precautions[i].1;
      PrecautionMessages(DiseaseBanner, Frontend.PrecautionHeading(dc), p);
      PrecautionMessages(DiseaseBanner, Frontend.PrecautionHeading(predictedClass), p);
    case Healthy =>
    case GeneralAdvice =>
  }
}
