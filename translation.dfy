/**
  The bilingual (English / Kannada) helpers of the Streamlit page: the
  hand-written translation table `translations_kn` and the four lookups
  built on it (app.py:78-170), plus the location and soil drop-down options
  of the crop form (app.py:383-390).
 */
module Translation {
  import opened Wrappers
  import opened Text
  import opened Tables

  /** The page's language radio button: "English" or "ಕನ್ನಡ". */
  datatype Language = English | Kannada

  /** `translations_kn`, in declaration order. */
  const TranslationsKn: Table := [
    ("Crop Prediction", "ಬೆಳೆ ಊಹೆ"),
    ("Plant Leaf Detection", "ಸಸ್ಯ ಎಲೆ ಪತ್ತೆ"),
    ("Select a location:", "ಸ್ಥಳವನ್ನು ಆಯ್ಕೆಮಾಡಿ:"),
    ("Enter the Area (in acres)", "ವಿಸ್ತೀರ್ಣವನ್ನು ನಮೂದಿಸಿ (ಎಕರೆಗಳಲ್ಲಿ)"),
    ("Select soil type:", "ಮಣ್ಣಿನ ಪ್ರಕಾರವನ್ನು ಆಯ್ಕೆಮಾಡಿ:"),
    ("Submit Crop Prediction", "ಬೆಳೆ ಊಹೆಯನ್ನು ಸಲ್ಲಿಸಿ"),
    ("Choose Model", "ಮಾದರಿಯನ್ನು ಆಯ್ಕೆಮಾಡಿ"),
    ("Upload Leaf Image", "ಎಲೆಯ ಚಿತ್ರವನ್ನು ಅಪ್ಲೋಡ್ ಮಾಡಿ"),
    ("Prediction Result", "ಊಹೆ ಫಲಿತಾಂಶ"),
    ("Predicted Class:", "ಊಹಿಸಿದ ವರ್ಗ:"),
    ("Confidence:", "ನಂಬಿಕೆ:"),
    ("The leaf looks healthy! No action needed.", "ಎಲೆ ಆರೋಗ್ಯಕರವಾಗಿ ಕಾಣುತ್ತದೆ! ಯಾವುದೇ ಕ್ರಮ ಅಗತ್ಯವಿಲ್ಲ."),
    ("The leaf appears to be affected by a disease.", "ಎಲೆ ರೋಗದಿಂದ ಪೀಡಿತವಾಗಿದೆ ಎಂದು ತೋರುತ್ತದೆ."),
    ("Precaution for", "ಇದಕ್ಕೆ ಮುಂಜಾಗ್ರತೆ"),
    ("General Advice: Remove the infected parts, isolate affected plants, and consult an agricultural expert.", "ಸಾಮಾನ್ಯ ಸಲಹೆ: ಸೋಂಕು ಹರಡಿದ ಭಾಗಗಳನ್ನು ತೆಗೆದುಹಾಕಿ, ಪೀಡಿತ ಸಸ್ಯಗಳನ್ನು ಪ್ರತ್ಯೇಕಿಸಿ ಮತ್ತು ಕೃಷಿ ತಜ್ಞರನ್ನು ಸಂಪರ್ಕಿಸಿ."),
    ("Voice output played automatically", "ಧ್ವನಿ ಔಟ್ಪುಟ್ ಸ್ವಯಂಚಾಲಿತವಾಗಿ ಪ್ಲೇ ಆಗಿದೆ"),
    ("Send Results to Email", "ಫಲಿತಾಂಶಗಳನ್ನು ಇಮೇಲ್\U{200C}ಗೆ ಕಳುಹಿಸಿ"),
    ("Enter your registered email:", "ನಿಮ್ಮ ನೋಂದಾಯಿತ ಇಮೇಲ್ ಅನ್ನು ನಮೂದಿಸಿ:"),
    ("Results sent to your email successfully!", "ಫಲಿತಾಂಶಗಳು ನಿಮ್ಮ ಇಮೇಲ್\U{200C}ಗೆ ಯಶಸ್ವಿಯಾಗಿ ಕಳುಹಿಸಲಾಗಿದೆ!"),
    ("Failed to send email. Please try again later.", "ಇಮೇಲ್ ಕಳುಹಿಸಲು ವಿಫಲವಾಗಿದೆ. ದಯವಿಟ್ಟು ನಂತರ ಮತ್ತೆ ಪ್ರಯತ್ನಿಸಿ."),
    // Crop names in Kannada
    ("Rice", "ಅಕ್ಕಿ"),
    ("Wheat", "ಗೋಧಿ"),
    ("Maize", "ಮೆಕ್ಕೆ ಜೋಳ"),
    ("Sugarcane", "ಕಬ್ಬು"),
    ("Cotton", "ಹತ್ತಿ"),
    ("Groundnut", "ಕಡಲೆಕಾಯಿ"),
    ("Ragi", "ರಾಗಿ"),
    ("Sunflower", "ಸೂರ್ಯಕಾಂತಿ"),
    ("Jowar", "ಜೋಳ"),
    ("Bengal Gram", "ಕಡಲೆ"),
    ("Red Gram", "ತೊಗರಿ ಬೇಳೆ"),
    ("Green Gram", "ಹೆಸರು ಬೇಳೆ"),
    ("Black Gram", "ಉದ್ದು ಬೇಳೆ"),
    // Locations in Kannada
    ("Mangalore", "ಮಂಗಳೂರು"),
    ("Udupi", "ಉಡುಪಿ"),
    ("Raichur", "ರಾಯಚೂರು"),
    ("Gulbarga", "ಗುಲ್ಬರ್ಗಾ"),
    ("Mysuru", "ಮೈಸೂರು"),
    ("Hassan", "ಹಾಸನ"),
    ("Kasaragodu", "ಕಾಸರಗೋಡು"),
    // Soil types in Kannada
    ("Alluvial", "ಪ್ರವಾಹಿ ಮಣ್ಣು"),
    ("Loam", "ಎರೆಮಣ್ಣು"),
    ("Laterite", "ಲ್ಯಾಟರೈಟ್ ಮಣ್ಣು"),
    ("Sandy", "ಮರಳು ಮಣ್ಣು"),
    ("Red", "ಕೆಂಪು ಮಣ್ಣು"),
    ("Black", "ಕಪ್ಪು ಮಣ್ಣು"),
    ("Sandy Loam", "ಮರಳು ಎರೆಮಣ್ಣು"),
    ("Clay", "ಜೇಡಿ ಮಣ್ಣು"),
    // Disease names in Kannada
    ("early_blight", "ಮುಂಚಿನ ಬ್ಲೈಟ್"),
    ("late_blight", "ತಡವಾದ ಬ್ಲೈಟ್"),
    ("leaf_mold", "ಎಲೆ ಅಚ್ಚು"),
    ("septoria_leaf_spot", "ಸೆಪ್ಟೋರಿಯಾ ಎಲೆದುರಿತ"),
    ("bacterial_spot", "ಬ್ಯಾಕ್ಟೀರಿಯಾದ ದುರಿತ"),
    ("powdery_mildew", "ಪೌಡರಿ ಮಿಲ್ಡ್ಯೂ"),
    ("rust", "ತುಕ್ಕು"),
    ("healthy", "ಆರೋಗ್ಯಕರ")
  ]

  /** `get_kannada_crop_name`: the table's value for a known key, otherwise
      the argument unchanged (see `Tables.GetOrSpec`). */
  function KannadaCropName(englishName: string): string
  {
    GetOr(TranslationsKn, englishName, englishName)
  }

  /** `name.lower().replace("_", " ")`. */
  function Clean(name: string): string
  {
    ReplaceChar(Lower(name), '_', ' ')
  }

  /** The first position, in table order, whose cleaned key equals `clean`. */
  function CleanKeyIndex(t: Table, clean: string): (r: Option<nat>)
    ensures r.Some? ==> r.value < |t| && Clean(t[r.value].0) == clean
    ensures r.Some? ==> forall j :: 0 <= j < r.value ==> Clean(t[j].0) != clean
    ensures r.None? <==> forall j :: 0 <= j < |t| ==> Clean(t[j].0) != clean
  {
    if t == [] then None
    else if Clean(t[0].0) == clean then Some(0)
    else match CleanKeyIndex(t[1..], clean)
      case Some(i) => Some(i + 1)
      case None => None
  }

  /** The three-step lookup of `get_kannada_disease_name` over table `t`: an
      exact key wins; otherwise the first key, in table order, that matches
      once both sides are lower-cased with `_` read as a space; otherwise the
      argument with every `_` made a space. */
  function DiseaseName(t: Table, englishName: string): (r: string)
    ensures forall i: nat :: FirstKeyAt(t, englishName, i) ==> r == t[i].1
    ensures !HasKey(t, englishName) ==>
      forall i: nat :: i < |t| && Clean(t[i].0) == Clean(englishName)
        && (forall j :: 0 <= j < i ==> Clean(t[j].0) != Clean(englishName))
        ==> r == t[i].1
    ensures !HasKey(t, englishName)
      && (forall j :: 0 <= j < |t| ==> Clean(t[j].0) != Clean(englishName))
      ==> r == ReplaceChar(englishName, '_', ' ')
  {
    forall i: nat | FirstKeyAt(t, englishName, i)
      ensures KeyIndex(t, englishName) == Some(i)
    {
      FirstKeyUnique(t, englishName, i);
    }
    match KeyIndex(t, englishName)
    case Some(i) => t[i].1
    case None =>
      match CleanKeyIndex(t, Clean(englishName))
      case Some(i) => t[i].1
      case None => ReplaceChar(englishName, '_', ' ')
  }

  /** `get_kannada_disease_name`. */
  function KannadaDiseaseName(englishName: string): string
  {
    DiseaseName(TranslationsKn, englishName)
  }

  /** `get_english_crop_name`: the English key of the first entry of
      `translations_kn` whose value is the argument, else the argument
      (see `Tables.ReverseGetOr`). */
  function EnglishCropName(kannadaName: string): string
  {
    ReverseGetOr(TranslationsKn, kannadaName, kannadaName)
  }

  /** The lookup behind `translate_text`, over table `t`: the identity in
      English; in Kannada the table's value for a key and the text itself
      for anything else. */
  function Translate(t: Table, language: Language, text: string): (r: string)
    ensures language == English ==> r == text
    ensures language == Kannada ==> forall i: nat :: FirstKeyAt(t, text, i) ==> r == t[i].1
    ensures !HasKey(t, text) ==> r == text
  {
    GetOrSpec(t, text, text);
    if language == English then text else GetOr(t, text, text)
  }

  /** `translate_text(text, dest_language)`, reading the page's `language`.
      `destLanguage` is accepted and never consulted. */
  function TranslateText(language: Language, text: string, destLanguage: Option<string>): string
  {
    Translate(TranslationsKn, language, text)
  }

  /** The destination-language argument never changes a translation. */
  lemma TranslateIgnoresDestination(language: Language, text: string, d1: Option<string>, d2: Option<string>)
    ensures TranslateText(language, text, d1) == TranslateText(language, text, d2)
  {
  }

  /** The location names offered by the crop form, in menu order. */
  const LocationNames: seq<string> := ["Mangalore", "Udupi", "Raichur", "Gulbarga", "Mysuru", "Hassan", "Kasaragodu"]

  /** The soil names offered by the crop form, in menu order. */
  const SoilNames: seq<string> := ["Alluvial", "Loam", "Laterite", "Sandy", "Red", "Black", "Sandy Loam", "Clay"]

  /** The menu entry that means "nothing chosen yet", in both languages. */
  const Placeholder: string := "Select..."

  /** A drop-down's options over table `t`: the placeholder, then each name,
      shown translated when Kannada is selected. (The source indexes
      `translations_kn[name]` directly; every listed name is a key.) */
  function Options(t: Table, language: Language, names: seq<string>): seq<string>
  {
    [Placeholder] + seq(|names|, k requires 0 <= k < |names| =>
      if language == Kannada then GetOr(t, names[k], names[k]) else names[k])
  }

  /** The English name the crop form filters on for a chosen option, over table `t`. */
  function SelectionInEnglish(t: Table, language: Language, option: string): string
  {
    if language == Kannada then ReverseGetOr(t, option, option) else option
  }

  /** Choosing the k-th name from a drop-down and mapping the choice back to
      English yields that name, in either language, provided no entry before
      the name's own has the same translation. */
  lemma OptionRoundTrip(t: Table, language: Language, names: seq<string>, k: nat, i: nat)
    requires k < |names|
    requires FirstKeyAt(t, names[k], i)
    requires forall j :: 0 <= j < i ==> t[j].1 != t[i].1
    ensures Options(t, language, names)[0] == Placeholder
    ensures SelectionInEnglish(t, language, Options(t, language, names)[k + 1]) == names[k]
  {
    var shown := Options(t, language, names)[k + 1];
    if language == Kannada {
      assert shown == GetOr(t, names[k], names[k]);
      assert t[i].0 == names[k];
      NameRoundTrip(t, i);
    } else {
      assert shown == names[k];
    }
  }
}
