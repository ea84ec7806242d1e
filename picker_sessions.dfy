/**
 * A picker driven by its own two user actions, one after another: confirming
 * a selection in the storage dialog (`_insertImage`) and `reset`. These
 * lemmas state what holds over any such session.
 */
module PickerSessions {
  import opened Pickers

  datatype Action = Select(items: seq<Item>) | Clear

  /** The picker state after one action. */
  function Step(data: ImageValue, action: Action, allowed: set<string>): Confirmed
  {
    match action
    case Select(items) => Confirm(data, items, allowed)
    case Clear => Confirmed(Empty, 0)
  }

  /** The final `data` and the total number of toasts after a session. */
  function Run(data: ImageValue, actions: seq<Action>, allowed: set<string>): (r: Confirmed)
    ensures r.toasts <= |actions|
    decreases |actions|
  {
    if |actions| == 0 then Confirmed(data, 0)
    else
      var first := Step(data, actions[0], allowed);
      var rest := Run(first.data, actions[1..], allowed);
      Confirmed(rest.data, first.toasts + rest.toasts)
  }

  /** `data` holds nothing, or an image the rule accepts. */
  predicate Admissible(v: ImageValue, allowed: set<string>)
  {
    v == Empty || (v.Picked? && Acceptable(v.item, allowed))
  }

  /** How many selections in a session are rejected: independent of Run. */
  function Rejections(actions: seq<Action>, allowed: set<string>): nat
    decreases |actions|
  {
    if |actions| == 0 then 0
    else
      var here := match actions[0]
        case Select(items) => if |items| > 0 && !Acceptable(items[0], allowed) then 1 else 0
        case Clear => 0;
      here + Rejections(actions[1..], allowed)
  }

  /** Starting from an admissible value (e.g. the constructor's `{}`), a picker only ever holds an admissible value. */
  lemma {:induction false} RunStaysAdmissible(data: ImageValue, actions: seq<Action>, allowed: set<string>)
    requires Admissible(data, allowed)
    ensures Admissible(Run(data, actions, allowed).data, allowed)
    decreases |actions|
  {
    if |actions| > 0 {
      RunStaysAdmissible(Step(data, actions[0], allowed).data, actions[1..], allowed);
    }
  }

  /** Exactly one toast per rejected selection, none otherwise. */
  lemma {:induction false} RunToastsCountRejections(data: ImageValue, actions: seq<Action>, allowed: set<string>)
    ensures Run(data, actions, allowed).toasts == Rejections(actions, allowed)
    decreases |actions|
  {
    if |actions| > 0 {
      RunToastsCountRejections(Step(data, actions[0], allowed).data, actions[1..], allowed);
    }
  }

  /** After a reset the history before it no longer matters. */
  lemma {:induction false} ClearForgetsHistory(data: ImageValue, before: seq<Action>, after: seq<Action>, allowed: set<string>)
    ensures Run(data, before + [Clear] + after, allowed).data == Run(Empty, after, allowed).data
    decreases |before|
  {
    var whole := before + [Clear] + after;
    if |before| == 0 {
      assert whole[1..] == after;
    } else {
      assert whole[1..] == before[1..] + [Clear] + after;
      ClearForgetsHistory(Step(data, before[0], allowed).data, before[1..], after, allowed);
    }
  }

  /** Resetting twice is resetting once. */
  lemma ClearIdempotent(data: ImageValue, allowed: set<string>)
    ensures Run(data, [Clear, Clear], allowed) == Run(data, [Clear], allowed)
  {
    assert [Clear, Clear][1..] == [Clear];
  }

  /**
   * A session the logo picker completes without a toast runs identically on
   * the avatar picker: its rule only ever widens the logo picker's.
   */
  lemma {:induction false} LogoSessionRunsOnAvatar(data: ImageValue, actions: seq<Action>)
    requires Run(data, actions, LogoFormats).toasts == 0
    ensures Run(data, actions, AvatarFormats) == Run(data, actions, LogoFormats)
    decreases |actions|
  {
    if |actions| > 0 {
      var logo := Step(data, actions[0], LogoFormats);
      if actions[0].Select? && |actions[0].items| > 0 {
        LogoAcceptedByAvatar(actions[0].items[0]);
      }
      assert Step(data, actions[0], AvatarFormats) == logo;
      LogoSessionRunsOnAvatar(logo.data, actions[1..]);
    }
  }
}
