/** The menu state machine of `navigate_menu` and `restart`, stated on
    values: the session is the list of keys pressed so far (`MENU`), the
    playback counter (`PLAYBACK_INDEX`) and the first-playback flag
    (`IS_FIRST_PLAYBACK`). Transition says, entry menu by entry menu, what
    one key does; the loop that implements it is Payphone.Phone.NavigateMenu. */
module Menu {
  import opened Wrappers
  import Keypad

  datatype Session = Session(menu: seq<char>, playbackIndex: nat, isFirstPlayback: bool)

  /** The state `restart` leaves: main menu, counter at zero, the playback
      introduction due again. */
  const Initial: Session := Session([], 0, true)

  /** The three menus a session rests at between key presses: the main menu,
      the record menu and the playback menu. */
  predicate RestingMenu(menu: seq<char>) {
    menu == [] || menu == ['1'] || menu == ['2']
  }

  /** The sessions reachable from Initial: at a resting menu, and past the
      playback introduction whenever in the playback menu. */
  predicate Reachable(s: Session) {
    RestingMenu(s.menu) && (s.menu == ['2'] ==> !s.isFirstPlayback)
  }

  /** The effect of one key. From the main menu, '1' opens the record menu
      and '2' the playback menu; from the record menu, '0' (discard) and '#'
      (save) go back to the start and every other key stays; from the
      playback menu, '0' goes back to the start, '2' moves to the next
      message, and every other key stays. Any other key, and any key at a
      menu that is not a resting one, changes nothing. */
  function Transition(s: Session, key: char): Session {
    if s.menu == [] then
      if key == '1' then s.(menu := ['1'])
      else if key == '2' then s.(menu := ['2'], isFirstPlayback := false)
      else s
    else if s.menu == ['1'] then
      if key == '0' || key == '#' then Initial else s
    else if s.menu == ['2'] then
      if key == '0' then Initial
      else if key == '1' then s.(isFirstPlayback := false)
      else if key == '2' then s.(playbackIndex := s.playbackIndex + 1, isFirstPlayback := false)
      else s
    else s
  }

  /** The key presses that `navigate_menu` resolves in two rounds of its loop
      (it pops back to the menu and handles that menu once more); every other
      press is resolved in one. */
  predicate TwoRounds(menu: seq<char>, key: char) {
    (menu == ['1'] && key == '1') || (menu == ['2'] && (key == '1' || key == '2'))
  }

  /** Keys pressed in order, each handled as one atomic step. */
  function Run(s: Session, keys: seq<char>): Session
    decreases |keys|
  {
    if keys == [] then s else Run(Transition(s, keys[0]), keys[1..])
  }

  /** The two callbacks of the program, each taken as one atomic step: a
      hook-switch edge runs `restart`; a keypad press carries the hook level
      and the ADC sample `button_handler` reads. */
  datatype Event = HookEdge | KeyPress(offHook: bool, sample: int)

  function Handle(s: Session, e: Event): Session {
    match e
    case HookEdge => Initial
    case KeyPress(offHook, sample) =>
      if !offHook then s
      else match Keypad.Decode(sample)
        case None => s
        case Some(key) => Transition(s, key)
  }

  function Replay(s: Session, events: seq<Event>): Session
    decreases |events|
  {
    if events == [] then s else Replay(Handle(s, events[0]), events[1..])
  }

  /** One key keeps a session reachable. */
  lemma TransitionReachable(s: Session, key: char)
    requires Reachable(s)
    ensures Reachable(Transition(s, key))
  {
  }

  /** From a resting menu, one key leads to a resting menu again, whatever
      the flag says. */
  lemma TransitionResting(s: Session, key: char)
    requires RestingMenu(s.menu)
    ensures RestingMenu(Transition(s, key).menu)
  {
  }

  /** What each key does at each resting menu. */
  lemma TransitionTable(s: Session, key: char)
    requires Reachable(s)
    ensures s.menu == ['1'] && (key == '0' || key == '#') ==> Transition(s, key) == Initial
    ensures s.menu == ['2'] && key == '0' ==> Transition(s, key) == Initial
    ensures s.menu == ['1'] && key != '0' && key != '#' ==> Transition(s, key) == s
    ensures s.menu == [] && key != '1' && key != '2' ==> Transition(s, key) == s
    ensures s.menu == ['2'] && key != '0' && key != '2' ==> Transition(s, key) == s
    ensures s.menu == [] && key == '2' ==> Transition(s, key).menu == ['2'] && !Transition(s, key).isFirstPlayback
  {
  }

  /** The playback counter moves only on '2' in the playback menu, by
      exactly one, and otherwise only back to zero through a reset. */
  lemma PlaybackIndexMoves(s: Session, key: char)
    ensures s.menu == ['2'] && key == '2' ==>
      Transition(s, key) == Session(['2'], s.playbackIndex + 1, false)
    ensures !(s.menu == ['2'] && key == '2') ==>
      Transition(s, key).playbackIndex == s.playbackIndex || Transition(s, key) == Initial
  {
  }

  /** Any sequence of keys keeps a session reachable. */
  lemma {:induction false} RunReachable(s: Session, keys: seq<char>)
    requires Reachable(s)
    ensures Reachable(Run(s, keys))
    decreases |keys|
  {
    if keys != [] {
      TransitionReachable(s, keys[0]);
      RunReachable(Transition(s, keys[0]), keys[1..]);
    }
  }

  /** Without '0' or '#', the only keys that reset, the playback counter
      never goes down and goes up by at most one per key. */
  lemma {:induction false} RunPlaybackIndex(s: Session, keys: seq<char>)
    requires forall i :: 0 <= i < |keys| ==> keys[i] != '0' && keys[i] != '#'
    ensures s.playbackIndex <= Run(s, keys).playbackIndex <= s.playbackIndex + |keys|
    decreases |keys|
  {
    if keys != [] {
      assert keys[0] != '0' && keys[0] != '#';
      RunPlaybackIndex(Transition(s, keys[0]), keys[1..]);
    }
  }

  /** Replaying both callbacks in any interleaving from the start keeps the
      session reachable. */
  lemma {:induction false} ReplayReachable(s: Session, events: seq<Event>)
    requires Reachable(s)
    ensures Reachable(Replay(s, events))
    decreases |events|
  {
    if events != [] {
      var e := events[0];
      if e.KeyPress? && e.offHook && Keypad.Decode(e.sample).Some? {
        TransitionReachable(s, Keypad.Decode(e.sample).value);
      }
      ReplayReachable(Handle(s, e), events[1..]);
    }
  }

  /** A press while on hook, or of a sample in a gap between bands, leaves
      the session as it is; a hook edge always restarts, and twice is the
      same as once. */
  lemma HandleNoKey(s: Session, e: Event)
    ensures e.KeyPress? && (!e.offHook || Keypad.InGap(e.sample)) ==> Handle(s, e) == s
    ensures e.HookEdge? ==> Handle(s, e) == Initial && Handle(Handle(s, e), e) == Handle(s, e)
  {
    if e.KeyPress? {
      Keypad.DecodeGaps(e.sample);
    }
  }

  /** Recording then saving returns to the start; three '2's from the start
      reach the second message after the first; an unknown key at the start
      does nothing. */
  lemma Scenarios()
    ensures Run(Initial, ['1', '#']) == Initial
    ensures Run(Initial, ['1', '1', '2', '0']) == Initial
    ensures Run(Initial, ['2', '2', '2']) == Session(['2'], 2, false)
    ensures Run(Initial, ['2', '2', '0']) == Initial
    ensures Run(Initial, ['3']) == Initial
  {
  }
}
