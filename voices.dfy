/**
 * `populateVoiceList` of script.js: for every voice the speech service offers,
 * in order, one option is appended to the voice selector. Its text is the
 * voice's name followed by its language in parentheses, marked " -- DEFAULT"
 * for the platform's default voice; it also carries the voice's language and
 * name as the `data-lang` and `data-name` attributes.
 */
module Voices {

  /** A voice as the speech service reports it. */
  datatype Voice = Voice(name: string, lang: string, isDefault: bool)

  /** An option element of the voice selector: its text and its two data attributes. */
  datatype VoiceOption = VoiceOption(text: string, dataLang: string, dataName: string)

  /** The suffix that marks the default voice. */
  const DefaultMarker: string := " -- DEFAULT"

  predicate EndsWith(s: string, suffix: string)
  {
    |suffix| <= |s| && s[|s| - |suffix|..] == suffix
  }

  /** The text shown for a voice: "name (lang)", then the marker if it is the default voice. */
  function Label(v: Voice): (text: string)
    ensures |text| == |v.name| + |v.lang| + 3 + (if v.isDefault then |DefaultMarker| else 0)
    ensures text[..|v.name| + |v.lang| + 3] == v.name + " (" + v.lang + ")"
    ensures EndsWith(text, DefaultMarker) <==> v.isDefault
  {
    var base := v.name + " (" + v.lang + ")";
    assert base[|base| - 1] == ')';
    if v.isDefault then base + DefaultMarker else base
  }

  /** The option appended for one voice. */
  function OptionFor(v: Voice): VoiceOption
  {
    VoiceOption(Label(v), v.lang, v.name)
  }

  /** The options appended for a list of voices: one per voice, in the voices' order. */
  function VoiceOptions(voices: seq<Voice>): (options: seq<VoiceOption>)
    ensures |options| == |voices|
    ensures forall i :: 0 <= i < |voices| ==>
      options[i].dataName == voices[i].name && options[i].dataLang == voices[i].lang &&
      options[i].text == Label(voices[i])
  {
    if voices == [] then []
    else VoiceOptions(voices[..|voices| - 1]) + [OptionFor(voices[|voices| - 1])]
  }

  /** Exactly the options of default voices carry the default marker. */
  lemma DefaultMarkedIff(voices: seq<Voice>, i: int)
    requires 0 <= i < |voices|
    ensures EndsWith(VoiceOptions(voices)[i].text, DefaultMarker) <==> voices[i].isDefault
  {
  }

  /**
   * The loop of populateVoiceList: it returns the options appended to the
   * selector, in the order they are appended.
   */
  method PopulateVoiceList(voices: seq<Voice>) returns (appended: seq<VoiceOption>)
    ensures appended == VoiceOptions(voices)
  {
    appended := [];
    var i := 0;
    while i < |voices|
      invariant 0 <= i <= |voices|
      invariant appended == VoiceOptions(voices[..i])
    {
      var option := OptionFor(voices[i]);
      assert voices[..i + 1][..i] == voices[..i];
      appended := appended + [option];
      i := i + 1;
    }
    assert voices[..|voices|] == voices;
  }
}
