/**
 * The click handler that `speak` in script.js installs on the speak button.
 * The utterance is the top caption followed by the bottom caption; nothing is
 * spoken when that text is empty. Otherwise the voice is looked up by the
 * `data-name` of the selected option: the scan over the voices overwrites its
 * choice on every match, so the last voice with that name wins, and when no
 * voice matches the platform's default voice is used.
 */
module Speech {
  import opened Wrappers
  import opened Voices

  /** The selector's first selected option, if any, with its `data-name` attribute if it has one. */
  datatype Selection = NoSelection | Selected(dataName: Option<string>)

  /** What is handed to the speech service: the text and the index of the chosen voice, if any. */
  datatype Utterance = Utterance(text: string, voice: Option<nat>)

  /**
   * What a click does: nothing (empty text), speak an utterance, or stop with a
   * TypeError because no option is selected (`selectedOptions[0]` is undefined).
   */
  datatype ClickOutcome = Silent | Spoken(utterance: Utterance) | Threw

  /**
   * `chosen` is the last voice whose name equals `dataName`, or None when no voice
   * matches (an absent attribute matches no voice).
   */
  predicate IsLastMatch(voices: seq<Voice>, dataName: Option<string>, chosen: Option<nat>)
  {
    match chosen
    case None => forall j :: 0 <= j < |voices| ==> dataName != Some(voices[j].name)
    case Some(k) =>
      k < |voices| && dataName == Some(voices[k].name) &&
      forall j :: k < j < |voices| ==> dataName != Some(voices[j].name)
  }

  /** At most one choice is the last match. */
  lemma LastMatchUnique(voices: seq<Voice>, dataName: Option<string>, a: Option<nat>, b: Option<nat>)
    requires IsLastMatch(voices, dataName, a) && IsLastMatch(voices, dataName, b)
    ensures a == b
  {
  }

  /** The last match, found from the end of the list. */
  function LastVoiceNamed(voices: seq<Voice>, dataName: Option<string>): (chosen: Option<nat>)
    ensures IsLastMatch(voices, dataName, chosen)
  {
    if voices == [] then None
    else if dataName == Some(voices[|voices| - 1].name) then Some(|voices| - 1)
    else LastVoiceNamed(voices[..|voices| - 1], dataName)
  }

  /**
   * The voice scan of the click handler: every voice whose name matches replaces
   * the previous choice.
   */
  method ChooseVoice(voices: seq<Voice>, dataName: Option<string>) returns (chosen: Option<nat>)
    ensures IsLastMatch(voices, dataName, chosen)
  {
    chosen := None;
    var i := 0;
    while i < |voices|
      invariant 0 <= i <= |voices|
      invariant IsLastMatch(voices[..i], dataName, chosen)
    {
      if dataName == Some(voices[i].name) {
        chosen := Some(i);
      }
      i := i + 1;
    }
    assert voices[..|voices|] == voices;
  }

  /** The click handler: the text, the empty-text guard, the selected option and the voice scan. */
  method OnSpeakClick(top: string, bottom: string, voices: seq<Voice>, selection: Selection)
    returns (outcome: ClickOutcome)
    ensures outcome == Silent <==> top == "" && bottom == ""
    ensures outcome == Threw <==> (top != "" || bottom != "") && selection == NoSelection
    ensures outcome.Spoken? ==>
      selection.Selected? && outcome.utterance.text == top + bottom &&
      IsLastMatch(voices, selection.dataName, outcome.utterance.voice)
  {
    var text := top + bottom;
    if text != "" {
      match selection
      case NoSelection =>
        outcome := Threw;
      case Selected(dataName) =>
        var chosen := ChooseVoice(voices, dataName);
        outcome := Spoken(Utterance(text, chosen));
    } else {
      outcome := Silent;
    }
  }

  /** No two voices share a name. */
  predicate DistinctNames(voices: seq<Voice>)
  {
    forall i, j :: 0 <= i < j < |voices| ==> voices[i].name != voices[j].name
  }

  /** A name some voice carries is always found, at that voice or after it. */
  lemma VoiceNameChosen(voices: seq<Voice>, k: int)
    requires 0 <= k < |voices|
    ensures LastVoiceNamed(voices, Some(voices[k].name)).Some?
    ensures k <= LastVoiceNamed(voices, Some(voices[k].name)).value < |voices|
    ensures voices[LastVoiceNamed(voices, Some(voices[k].name)).value].name == voices[k].name
  {
  }

  /** When no two voices share a name, a voice's own name selects that voice. */
  lemma DistinctNamesChooseOwnVoice(voices: seq<Voice>, k: int)
    requires 0 <= k < |voices|
    ensures DistinctNames(voices) ==> LastVoiceNamed(voices, Some(voices[k].name)) == Some(k)
  {
  }

  /**
   * Choosing the option populateVoiceList built for voice `k` looks up that voice's
   * name; when voice names are distinct, the utterance is spoken with voice `k`.
   */
  lemma SelectedOptionVoice(voices: seq<Voice>, k: int)
    requires 0 <= k < |voices|
    ensures VoiceOptions(voices)[k].dataName == voices[k].name
    ensures DistinctNames(voices) ==>
      LastVoiceNamed(voices, Some(VoiceOptions(voices)[k].dataName)) == Some(k)
  {
    var options := VoiceOptions(voices);
    assert options[k].dataName == voices[k].name;
    DistinctNamesChooseOwnVoice(voices, k);
  }
}
