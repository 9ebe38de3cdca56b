/**
 * Two toggle buttons gated by a requirement on a slider value: a click on a
 * button makes it the active one, or clears it when it already was. While
 * the requirement is unmet, Button 1 ignores clicks through an explicit guard
 * in the click handler and Button 2 through its `disabled` attribute.
 */
module ConditionalButtons {
  import opened Wrappers

  datatype ButtonId = Button1 | Button2

  /** `checkRequirement`. */
  predicate MeetsRequirement(value: int)
  {
    value >= 5
  }

  /** The state update of an accepted click: `prev === buttonId ? null : buttonId`. */
  function Toggle(active: Option<ButtonId>, id: ButtonId): Option<ButtonId>
  {
    if active == Some(id) then None else Some(id)
  }

  /** `handleButtonClick`: Button 1 is refused while the requirement is unmet. */
  function HandleClick(active: Option<ButtonId>, id: ButtonId, meets: bool): (r: Option<ButtonId>)
    ensures r == active || r == None || r == Some(id)
    ensures meets || id == Button2 ==> (r == None <==> active == Some(id))
  {
    if id == Button1 && !meets then active else Toggle(active, id)
  }

  /** A click as the page delivers it: a disabled Button 2 never reaches the handler. */
  function Press(active: Option<ButtonId>, id: ButtonId, meets: bool): (r: Option<ButtonId>)
    ensures r == active || r == None || r == Some(id)
    ensures meets ==> r == Toggle(active, id)
  {
    if id == Button2 && !meets then active else HandleClick(active, id, meets)
  }

  /** While the requirement is unmet, no press changes the active button. */
  lemma UnmetPressIgnored(active: Option<ButtonId>, id: ButtonId)
    ensures Press(active, id, false) == active
  {
  }

  /** While it is met, a press on the active button clears it and a press on the other activates that one. */
  lemma MetPressToggles(active: Option<ButtonId>, id: ButtonId)
    ensures Press(active, id, true) == None <==> active == Some(id)
    ensures active != Some(id) ==> Press(active, id, true) == Some(id)
  {
  }

  /**
   * Two accepted presses on one button restore the state when that button
   * was active or none was; after the other button was active they leave none.
   */
  lemma PressTwice(active: Option<ButtonId>, id: ButtonId)
    ensures active == None || active == Some(id) ==> Press(Press(active, id, true), id, true) == active
    ensures active.Some? && active != Some(id) ==> Press(Press(active, id, true), id, true) == None
  {
  }

  /** Whether the button is drawn in its active style; a disabled Button 2 is drawn greyed out. */
  predicate Highlighted(active: Option<ButtonId>, id: ButtonId, meets: bool)
  {
    if id == Button2 then meets && active == Some(Button2) else active == Some(Button1)
  }

  class ButtonsState {
    var value: int
    var activeButton: Option<ButtonId>

    constructor()
      ensures value == 0 && activeButton == None
    {
      value := 0;
      activeButton := None;
    }

    /** The range input (0 to 10): the value changes, the active button does not. */
    method SetValue(v: int)
      requires 0 <= v <= 10
      modifies this
      ensures value == v && activeButton == old(activeButton)
    {
      value := v;
    }

    method Click(id: ButtonId)
      modifies this
      ensures activeButton == Press(old(activeButton), id, MeetsRequirement(value))
      ensures value == old(value)
    {
      if id == Button2 && !MeetsRequirement(value) {
        return;
      }
      if id == Button1 && !MeetsRequirement(value) {
        return;
      }
      activeButton := Toggle(activeButton, id);
    }
  }

  /**
   * Button 2 stays active after the value drops below the requirement,
   * although it is then disabled and drawn greyed out.
   */
  method Button2OutlivesRequirement() returns (s: ButtonsState)
    ensures s.activeButton == Some(Button2) && !MeetsRequirement(s.value)
    ensures !Highlighted(s.activeButton, Button2, MeetsRequirement(s.value))
  {
    s := new ButtonsState();
    s.SetValue(5);
    s.Click(Button2);
    s.SetValue(4);
  }
}
