/**
  What the application says about a classified leaf: the precaution table
  shared by the bilingual page (app.py:56-75) and the stand-alone detector
  (frontend.py:19-29), the rule that picks healthy / a precaution / general
  advice, and the messages a page shows.
 */
module Advice {
  import opened Wrappers
  import opened Text
  import opened Tables

  /** `precautions_dict`, in declaration order; frontend.py declares the same
      seven entries in the same order. */
  const PrecautionsEn: Table := [
    ("early_blight",
     "Remove infected leaves, apply copper-based fungicide, and avoid overhead watering."),
    ("late_blight",
     "Destroy infected plants, use certified seeds, and apply recommended fungicide promptly."),
    ("leaf_mold",
     "Ensure good air circulation, remove affected foliage, and apply appropriate fungicides."),
    ("septoria_leaf_spot",
     "Avoid wet foliage, remove infected leaves, and use crop rotation."),
    ("bacterial_spot",
     "Use resistant varieties, avoid splashing water, and treat with copper spray."),
    ("powdery_mildew",
     "Increase airflow, use neem oil or sulfur spray, and keep foliage dry."),
    ("rust",
     "Remove infected leaves, water at the base, and apply sulfur or other fungicides.")
  ]

  /** `precautions_dict_kn`, in declaration order: the same keys as
      `PrecautionsEn`, with Kannada text. */
  const PrecautionsKn: Table := [
    ("early_blight",
     "ಸೋಂಕು ಹರಡಿದ ಎಲೆಗಳನ್ನು ತೆಗೆದುಹಾಕಿ, ತಾಮ್ರ-ಆಧಾರಿತ ಫಂಗಿಸೈಡ್ ಅನ್ನು ಅನ್ವಯಿಸಿ ಮತ್ತು ಮೇಲಿನ ನೀರಾವರಿಯನ್ನು ತಪ್ಪಿಸಿ."),
    ("late_blight",
     "ಸೋಂಕು ಹರಡಿದ ಸಸ್ಯಗಳನ್ನು ನಾಶಪಡಿಸಿ, ಪ್ರಮಾಣೀಕೃತ ಬೀಜಗಳನ್ನು ಬಳಸಿ ಮತ್ತು ಶಿಫಾರಸು ಮಾಡಿದ ಫಂಗಿಸೈಡ್ ಅನ್ನು ತಕ್ಷಣ ಅನ್ವಯಿಸಿ."),
    ("leaf_mold",
     "ಉತ್ತಮ ಗಾಳಿ ಸಂಚಾರವನ್ನು ಖಚಿತಪಡಿಸಿ, ಪೀಡಿತ ಎಲೆಗಳನ್ನು ತೆಗೆದುಹಾಕಿ ಮತ್ತು ಸೂಕ್ತವಾದ ಫಂಗಿಸೈಡ್ಗಳನ್ನು ಅನ್ವಯಿಸಿ."),
    ("septoria_leaf_spot",
     "ನೆನೆದ ಎಲೆಗಳನ್ನು ತಪ್ಪಿಸಿ, ಸೋಂಕು ಹರಡಿದ ಎಲೆಗಳನ್ನು ತೆಗೆದುಹಾಕಿ ಮತ್ತು ಬೆಳೆ ತಿರುಗಾಟವನ್ನು ಬಳಸಿ."),
    ("bacterial_spot",
     "ನಿರೋಧಕ ಪ್ರಭೇದಗಳನ್ನು ಬಳಸಿ, ನೀರನ್ನು ಚಿಮ್ಮುವುದನ್ನು ತಪ್ಪಿಸಿ ಮತ್ತು ತಾಮ್ರ ಸ್ಪ್ರೇನೊಂದಿಗೆ ಚಿಕಿತ್ಸೆ ನೀಡಿ."),
    ("powdery_mildew",
     "ಗಾಳಿಯ ಹರಿವನ್ನು ಹೆಚ್ಚಿಸಿ, ನೀಂ ಎಣ್ಣೆ ಅಥವಾ ಸಲ್ಫರ್ ಸ್ಪ್ರೇ ಬಳಸಿ ಮತ್ತು ಎಲೆಗಳನ್ನು ಒಣಗಿರಿಸಿ."),
    ("rust",
     "ಸೋಂಕು ಹರಡಿದ ಎಲೆಗಳನ್ನು ತೆಗೆದುಹಾಕಿ, ಬೇಸಿಗೆಯಲ್ಲಿ ನೀರು ಹಾಕಿ ಮತ್ತು ಸಲ್ಫರ್ ಅಥವಾ ಇತರ ಫಂಗಿಸೈಡ್ಗಳನ್ನು ಅನ್ವಯಿಸಿ.")
  ]

  /** A message shown on the page, tagged with the Streamlit call that shows it. */
  datatype Display =
    | Success(text: string)   // st.success
    | Failure(text: string)   // st.error
    | Heading(text: string)   // st.markdown of a "###" heading
    | Warning(text: string)   // st.warning
    | Info(text: string)      // st.info

  /** The text the precaution keys are searched in:
      `predicted_class.lower().replace(" ", "_")`. */
  function MatchKey(predictedClass: string): string
  {
    ReplaceChar(Lower(predictedClass), ' ', '_')
  }

  /** `"healthy" in predicted_class.lower()`. */
  predicate LooksHealthy(predictedClass: string)
  {
    Contains(Lower(predictedClass), "healthy")
  }

  /** Which of the three answers a class gets. */
  datatype Diagnosis = Healthy | Precaution(index: nat) | GeneralAdvice

  /** The decision both pages make, for a precaution table `precautions`:
      healthy when the lower-cased class mentions "healthy"; otherwise the
      first key, in table order, that occurs in the match key; otherwise
      general advice. */
  function Diagnose(precautions: Table, predictedClass: string): (d: Diagnosis)
    ensures d.Healthy? <==> LooksHealthy(predictedClass)
    ensures d.Precaution? ==>
      d.index < |precautions| && Contains(MatchKey(predictedClass), precautions[d.index].0)
      && forall j :: 0 <= j < d.index ==> !Contains(MatchKey(predictedClass), precautions[j].0)
    ensures d.GeneralAdvice? <==>
      !LooksHealthy(predictedClass)
      && forall j :: 0 <= j < |precautions| ==> !Contains(MatchKey(predictedClass), precautions[j].0)
  {
    if LooksHealthy(predictedClass) then Healthy
    else match ContainedKeyIndex(precautions, MatchKey(predictedClass))
      case Some(i) => Precaution(i)
      case None => GeneralAdvice
  }

  /** A class that is not healthy gets the precaution of the first key,
      in table order, that occurs in its match key. */
  lemma DiagnoseFirstKey(precautions: Table, predictedClass: string, i: nat)
    requires !LooksHealthy(predictedClass)
    requires i < |precautions| && Contains(MatchKey(predictedClass), precautions[i].0)
    requires forall j :: 0 <= j < i ==> !Contains(MatchKey(predictedClass), precautions[j].0)
    ensures Diagnose(precautions, predictedClass) == Precaution(i)
  {
    var d := Diagnose(precautions, predictedClass);
    if d.index < i {
    } else if d.index > i {
    }
  }

  /** The English banners both pages show (U+2705 check mark, U+26A0 U+FE0F
      warning sign, U+1F50E magnifier). */
  const HealthyBanner: string := "\U{2705} The leaf looks healthy! No action needed."
  const DiseaseBanner: string := "\U{26A0}\U{FE0F} The leaf appears to be affected by a disease."
  const GeneralAdviceEn: string :=
    "General Advice: Remove the infected parts, isolate affected plants, and consult an agricultural expert."
  const Magnifier: string := "\U{1F50E} "
  /** U+1FA7A stethoscope, in front of every precaution heading. */
  const Stethoscope: string := "\U{1FA7A} "

  /** The texts of the `st.warning` messages among `shown`, in order. */
  function Warnings(shown: seq<Display>): seq<string>
  {
    if shown == [] then []
    else (if shown[0].Warning? then [shown[0].text] else []) + Warnings(shown[1..])
  }

  /** The texts of the `st.info` messages among `shown`, in order. */
  function Infos(shown: seq<Display>): seq<string>
  {
    if shown == [] then []
    else (if shown[0].Info? then [shown[0].text] else []) + Infos(shown[1..])
  }

  /** The warnings of two displays in a row are those of the first, then
      those of the second. */
  lemma {:induction false} WarningsAppend(a: seq<Display>, b: seq<Display>)
    ensures Warnings(a + b) == Warnings(a) + Warnings(b)
  {
    if a == [] {
      assert a + b == b;
    } else {
      assert (a + b)[1..] == a[1..] + b;
      WarningsAppend(a[1..], b);
    }
  }

  /** The infos of two displays in a row are those of the first, then those
      of the second. */
  lemma {:induction false} InfosAppend(a: seq<Display>, b: seq<Display>)
    ensures Infos(a + b) == Infos(a) + Infos(b)
  {
    if a == [] {
      assert a + b == b;
    } else {
      assert (a + b)[1..] == a[1..] + b;
      InfosAppend(a[1..], b);
    }
  }

  /** A verdict, a heading and a precaution: one warning, no advice. */
  lemma PrecautionMessages(verdict: string, heading: string, precaution: string)
    ensures Warnings([Failure(verdict), Heading(heading), Warning(precaution)]) == [precaution]
    ensures Infos([Failure(verdict), Heading(heading), Warning(precaution)]) == []
  {
    var x := [Failure(verdict), Heading(heading)];
    assert [Failure(verdict), Heading(heading), Warning(precaution)] == x + [Warning(precaution)];
    WarningsAppend(x, [Warning(precaution)]);
    InfosAppend(x, [Warning(precaution)]);
  }

  /** A verdict and a piece of advice: the advice once, no warning. */
  lemma AdviceMessages(verdict: string, advice: string)
    ensures Warnings([Failure(verdict), Info(advice)]) == []
    ensures Infos([Failure(verdict), Info(advice)]) == [advice]
  {
    assert [Failure(verdict), Info(advice)] == [Failure(verdict)] + [Info(advice)];
    WarningsAppend([Failure(verdict)], [Info(advice)]);
    InfosAppend([Failure(verdict)], [Info(advice)]);
  }

  /** `sub` does not occur in `p + q` when its first character is absent
      from `p` and `q` is shorter than `sub`. */
  lemma AbsentFirstChar(p: string, q: string, sub: string)
    requires |q| < |sub|
    requires sub[0] !in p
    ensures !Contains(p + q, sub)
  {
    var s := p + q;
    forall i: nat | i <= |s| ensures !OccursAt(s, sub, i) {
      if i + |sub| <= |s| {
        assert s[i..i + |sub|][0] == s[i] == p[i];
      }
    }
  }

  /** "Early Blight" in any letter case reaches the `early_blight` precaution:
      the class is matched lower-cased with spaces read as underscores. */
  lemma EarlyBlightExample()
    ensures Diagnose(PrecautionsEn, "Tomato Early Blight") == Precaution(0)
  {
    var c := "Tomato Early Blight";
    EarlyBlightNotHealthy();
    EarlyBlightKey();
    DiagnoseFirstKey(PrecautionsEn, c, 0);
  }

  lemma EarlyBlightNotHealthy()
    ensures !LooksHealthy("Tomato Early Blight")
  {
    assert Lower("Tomato Early Blight") == "tomato early " + "blight";
    AbsentFirstChar("tomato early ", "blight", "healthy");
  }

  lemma EarlyBlightKey()
    ensures Contains(MatchKey("Tomato Early Blight"), PrecautionsEn[0].0)
  {
    var k := MatchKey("Tomato Early Blight");
    assert k == "tomato_" + "early_blight";
    assert PrecautionsEn[0].0 == "early_blight";
    assert OccursAt(k, "early_blight", 7);
  }

  /** A class naming "Healthy" in any letter case is healthy, whatever else it says. */
  lemma HealthyExample(precautions: Table)
    ensures Diagnose(precautions, "Tomato Healthy Early_Blight") == Healthy
  {
    HealthyMentioned();
  }

  lemma HealthyMentioned()
    ensures LooksHealthy("Tomato Healthy Early_Blight")
  {
    var c := "Tomato Healthy Early_Blight";
    assert c[7..14] == "Healthy";
    LowerSlice(c, 7, 14);
    assert Lower("Healthy") == "healthy";
    assert OccursAt(Lower(c), "healthy", 7);
  }
}
