/** The root layout's app-state listener: moving to the background from a foreground state
    locks a registered user out. */
module Layout {
  import opened Text
  import opened Auth

  /** `state.match(/inactive|active/)`: the state names either word. */
  predicate IsForeground(state: string)
  {
    Contains(state, "inactive") || Contains(state, "active")
  }

  /** Since "inactive" contains "active", the pattern is just a search for "active". */
  lemma ForegroundIsActive(state: string)
    ensures IsForeground(state) <==> Contains(state, "active")
  {
    if Contains(state, "inactive") {
      assert OccursAt("active", "inactive", 2);
      ContainsTransitive(state, "inactive", "active");
    }
  }

  /** What the listener keeps: the last state seen, and the auth store. */
  datatype Listener = Listener(current: string, auth: AuthState)

  /** The `change` handler: locks when the last state was a foreground one, the next is
      'background' and the user is registered; then records the next state. */
  function OnChange(l: Listener, next: string): (r: Listener)
    ensures r.current == next
    ensures (IsForeground(l.current) && next == "background" && l.auth.isRegistered) ==> r.auth == LockApp(l.auth)
    ensures !(IsForeground(l.current) && next == "background" && l.auth.isRegistered) ==> r.auth == l.auth
  {
    if IsForeground(l.current) && next == "background" && l.auth.isRegistered then
      Listener(next, LockApp(l.auth))
    else Listener(next, l.auth)
  }

  function OnChanges(l: Listener, states: seq<string>): Listener
    decreases |states|
  {
    if |states| == 0 then l else OnChanges(OnChange(l, states[0]), states[1..])
  }

  /** An unregistered user is never locked out, whatever the app does. */
  lemma {:induction false} UnregisteredNeverLocks(l: Listener, states: seq<string>)
    requires !l.auth.isRegistered
    ensures OnChanges(l, states).auth == l.auth
    ensures |states| > 0 ==> OnChanges(l, states).current == states[|states| - 1]
    decreases |states|
  {
    if |states| > 0 {
      UnregisteredNeverLocks(OnChange(l, states[0]), states[1..]);
    }
  }

  /** The usual trips: from 'active' or 'inactive' to 'background' a registered user is
      locked; a repeated 'background' does not lock again. */
  lemma BackgroundTransitions(auth: AuthState)
    requires auth.isRegistered
    ensures OnChange(Listener("active", auth), "background").auth == LockApp(auth)
    ensures OnChange(Listener("inactive", auth), "background").auth == LockApp(auth)
    ensures OnChange(Listener("background", auth), "background").auth == auth
  {
    assert OccursAt("active", "active", 0);
    assert OccursAt("inactive", "inactive", 0);
    ForegroundIsActive("background");
    forall i | 0 <= i <= 4
      ensures !OccursAt("active", "background", i)
    {
      if i == 1 {
        assert "background"[i..i + 6][2] == 'k';
      } else {
        assert "background"[i..i + 6][0] != 'a';
      }
    }
  }
}
