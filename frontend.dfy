/**
  The stand-alone leaf-disease page (frontend.py): once a class has been
  predicted, the page shows a verdict and either a precaution or general
  advice (frontend.py:80-93).
 */
module Frontend {
  import opened Wrappers
  import opened Text
  import opened Tables
  import opened Advice

  /** The heading above a precaution, naming the predicted class. */
  function PrecautionHeading(predictedClass: string): string
  {
    "### " + Stethoscope + "Precaution for *" + predictedClass + "*"
  }

  /** What the page shows for a predicted class, in order, given its
      precaution table (`PrecautionsEn` on the page). */
  function Shown(precautions: Table, predictedClass: string): seq<Display>
  {
    match Diagnose(precautions, predictedClass)
    case Healthy => [Success(HealthyBanner)]
    case Precaution(i) =>
      [Failure(DiseaseBanner), Heading(PrecautionHeading(predictedClass)), Warning(precautions[i].1)]
    case GeneralAdvice => [Failure(DiseaseBanner), Info(Magnifier + GeneralAdviceEn)]
  }

  /** The display code of frontend.py:80-93: the healthy test, then the loop
      over `precautions_dict` with its `matched` flag and `break`, then the
      flag test. The page passes `PrecautionsEn` for `precautions`. */
  method ShowPrediction(precautions: Table, predictedClass: string) returns (shown: seq<Display>)
    ensures shown == Shown(precautions, predictedClass)
  {
    if Contains(Lower(predictedClass), "healthy") {
      shown := [Success(HealthyBanner)];
      return;
    }
    shown := [Failure(DiseaseBanner)];
    var key := MatchKey(predictedClass);
    var matched := false;
    var i := 0;
    while i < |precautions|
      invariant 0 <= i <= |precautions|
      invariant !matched && shown == [Failure(DiseaseBanner)]
      invariant forall j :: 0 <= j < i ==> !Contains(key, precautions[j].0)
    {
      if Contains(key, precautions[i].0) {
        DiagnoseFirstKey(precautions, predictedClass, i);
        shown := shown + [Heading(PrecautionHeading(predictedClass)), Warning(precautions[i].1)];
        matched := true;
        break;
      }
      i := i + 1;
    }
    if !matched {
      assert Diagnose(precautions, predictedClass).GeneralAdvice?;
      shown := shown + [Info(Magnifier + GeneralAdviceEn)];
    }
  }

  /** A class mentioning "healthy" in any letter case gets the success message
      alone: no precaution and no advice. */
  lemma HealthyShownAlone(precautions: Table, predictedClass: string)
    requires LooksHealthy(predictedClass)
    ensures Shown(precautions, predictedClass) == [Success(HealthyBanner)]
    ensures Warnings(Shown(precautions, predictedClass)) == [] && Infos(Shown(precautions, predictedClass)) == []
  {
  }

  /** When the i-th key is the first, in table order, to occur in the match
      key of a class that is not healthy, exactly its precaution is shown,
      once, under a heading naming the class, and no advice. */
  lemma FirstKeyWins(precautions: Table, predictedClass: string, i: nat)
    requires !LooksHealthy(predictedClass)
    requires i < |precautions| && Contains(MatchKey(predictedClass), precautions[i].0)
    requires forall j :: 0 <= j < i ==> !Contains(MatchKey(predictedClass), precautions[j].0)
    ensures Warnings(Shown(precautions, predictedClass)) == [precautions[i].1]
    ensures Infos(Shown(precautions, predictedClass)) == []
    ensures Heading(PrecautionHeading(predictedClass)) in Shown(precautions, predictedClass)
  {
    DiagnoseFirstKey(precautions, predictedClass, i);
    PrecautionMessages(DiseaseBanner, PrecautionHeading(predictedClass), precautions[i].1);
  }

  /** A class that is not healthy and matches no key gets the general advice
      exactly once and no precaution. */
  lemma GeneralAdviceOnce(precautions: Table, predictedClass: string)
    requires !LooksHealthy(predictedClass)
    requires forall j :: 0 <= j < |precautions| ==> !Contains(MatchKey(predictedClass), precautions[j].0)
    ensures Infos(Shown(precautions, predictedClass)) == [Magnifier + GeneralAdviceEn]
    ensures Warnings(Shown(precautions, predictedClass)) == []
  {
    assert Diagnose(precautions, predictedClass) == GeneralAdvice;
    AdviceMessages(DiseaseBanner, Magnifier + GeneralAdviceEn);
  }

  /** At most one precaution or piece of advice is ever shown, and one is
      shown exactly when the class is not healthy. */
  lemma OneAnswer(precautions: Table, predictedClass: string)
    ensures |Warnings(Shown(precautions, predictedClass))| + |Infos(Shown(precautions, predictedClass))|
         == if LooksHealthy(predictedClass) then 0 else 1
  {
    match Diagnose(precautions, predictedClass)
    case Healthy =>
    case Precaution(i) =>
      FirstKeyWins(precautions, predictedClass, i);
    case GeneralAdvice =>
      GeneralAdviceOnce(precautions, predictedClass);
  }
}
