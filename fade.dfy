/**
 * `SheetImageApp.addFadeStylesToSheet`: a fade button toggles the sheet's window
 * content between faded and not faded, and marks the fade buttons active to match.
 */
module Fade {
  import opened Wrappers
  import opened Dom

  const FadeClass := "fade"
  const FadeAllClass := "fade-all"
  const ActiveClass := "active"

  /** A button inside the window content: its `data-action` value and its class list. */
  datatype Button = Button(action: Option<string>, classes: set<string>)

  /**
   * The buttons `querySelectorAll('[data-action="fadeJournal"]', '[data-action="fadeContent"]')`
   * selects: the second argument is ignored, so only `fadeJournal` buttons.
   */
  predicate IsFadeButton(b: Button) {
    b.action == Some("fadeJournal")
  }

  /**
   * The window content's classes after the toggle: a faded window loses both fade
   * classes; otherwise it gains `fade`, and `fade-all` too when the pressed button's
   * action is `fadeContent`.  No other class changes.
   */
  function FadedClasses(classes: set<string>, action: Option<string>): (r: set<string>)
    ensures forall x :: x != FadeClass && x != FadeAllClass ==> (x in r <==> x in classes)
    ensures FadeClass in classes ==> FadeClass !in r && FadeAllClass !in r
    ensures FadeClass !in classes ==>
      FadeClass in r && (FadeAllClass in r <==> FadeAllClass in classes || action == Some("fadeContent"))
  {
    if FadeClass in classes then classes - {FadeClass, FadeAllClass}
    else classes + {FadeClass} + (if action == Some("fadeContent") then {FadeAllClass} else {})
  }

  /** A button after the toggle: a fade button loses `active` when the window was faded and gains it otherwise. */
  function ButtonAfter(b: Button, wasFaded: bool): (r: Button)
    ensures r.action == b.action
    ensures forall x :: x != ActiveClass ==> (x in r.classes <==> x in b.classes)
    ensures IsFadeButton(b) ==> (ActiveClass in r.classes <==> !wasFaded)
    ensures !IsFadeButton(b) ==> r == b
  {
    if !IsFadeButton(b) then b
    else if wasFaded then b.(classes := b.classes - {ActiveClass})
    else b.(classes := b.classes + {ActiveClass})
  }

  /** Pressing a fade button on an unfaded window and then any fade button again restores its classes. */
  lemma FadeRoundTrip(classes: set<string>, first: Option<string>, second: Option<string>)
    requires FadeClass !in classes && FadeAllClass !in classes
    ensures FadedClasses(FadedClasses(classes, first), second) == classes
  {
    var once := FadedClasses(classes, first);
    var twice := FadedClasses(once, second);
    assert forall x :: x in twice <==> x in classes;
  }

  /** A fade button's `active` mark after a press agrees with whether the window is now faded. */
  lemma ActiveMatchesFade(classes: set<string>, action: Option<string>, b: Button)
    requires IsFadeButton(b)
    ensures ActiveClass in ButtonAfter(b, FadeClass in classes).classes
        <==> FadeClass in FadedClasses(classes, action)
  {
  }

  /** The `.window-content` element of a sheet: its classes and the buttons inside it, in document order. */
  class WindowContent {
    var classes: set<string>
    const buttons: array<Button>

    constructor (classes: set<string>, buttons: seq<Button>)
      ensures this.classes == classes && this.buttons[..] == buttons && fresh(this.buttons)
    {
      this.classes := classes;
      this.buttons := new Button[|buttons|](i requires 0 <= i < |buttons| => buttons[i]);
    }

    /** The press of a fade button whose `data-action` is `action`. */
    method AddFadeStylesToSheet(event: UiEvent, action: Option<string>)
      modifies this, buttons, event
      ensures event.defaultPrevented
      ensures classes == FadedClasses(old(classes), action)
      ensures forall i :: 0 <= i < buttons.Length ==>
        buttons[i] == ButtonAfter(old(buttons[i]), FadeClass in old(classes))
    {
      event.PreventDefault();
      var wasFaded := FadeClass in classes;
      if wasFaded {
        classes := classes - {FadeClass, FadeAllClass};
      } else {
        var classNames := {FadeClass};
        if action == Some("fadeContent") {
          classNames := classNames + {FadeAllClass};
        }
        classes := classes + classNames;
      }
      for i := 0 to buttons.Length
        modifies buttons
        invariant classes == FadedClasses(old(classes), action)
        invariant forall j :: 0 <= j < i ==> buttons[j] == ButtonAfter(old(buttons[j]), wasFaded)
        invariant forall j :: i <= j < buttons.Length ==> buttons[j] == old(buttons[j])
      {
        var b := buttons[i];
        if IsFadeButton(b) {
          if wasFaded {
            buttons[i] := b.(classes := b.classes - {ActiveClass});
          } else {
            buttons[i] := b.(classes := b.classes + {ActiveClass});
          }
        }
      }
    }
  }
}
