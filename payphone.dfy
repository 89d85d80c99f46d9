/** The controller's mutable state and its two callbacks. The program keeps
    `MENU`, `PLAYBACK_INDEX` and `IS_FIRST_PLAYBACK` as globals that
    `restart` reassigns and `navigate_menu` updates in place; here they are
    the fields of one Phone object. */
module Payphone {
  import opened Wrappers
  import opened Menu
  import Keypad
  import Adc

  class Phone {
    var menu: seq<char>
    var playbackIndex: nat
    var isFirstPlayback: bool

    /** The fields as a Menu.Session value. */
    function State(): Session
      reads this
    {
      Session(menu, playbackIndex, isFirstPlayback)
    }

    /** Program start: the globals as initialised, then the `restart` that
        `main` runs before registering the callbacks. */
    constructor ()
      ensures State() == Initial
    {
      menu := [];
      playbackIndex := 0;
      isFirstPlayback := true;
    }

    /** `restart`: back to the main menu with the counter at zero and the
        playback introduction due again, whatever the state before; so a
        second call changes nothing more. */
    method Restart()
      modifies this
      ensures State() == Initial
      ensures Reachable(State())
    {
      menu := [];
      playbackIndex := 0;
      isFirstPlayback := true;
    }

    /** `navigate_menu`: append the key, then resolve the list in a loop that
        pops back, advances the playback counter or restarts, until some
        branch marks the input resolved. `rounds` counts the loop's
        iterations. */
    method NavigateMenu(key: char) returns (ghost rounds: nat)
      modifies this
      ensures State() == Transition(old(State()), key)
      ensures rounds == if TwoRounds(old(menu), key) then 2 else 1
      ensures RestingMenu(old(menu)) ==> RestingMenu(menu)
      ensures Reachable(old(State())) ==> Reachable(State())
    {
      ghost var s0 := State();
      ghost var goal := Transition(s0, key);
      ghost var two := TwoRounds(s0.menu, key);
      FirstRound(s0, key);
      menu := menu + [key];
      var unresolved := true;
      rounds := 0;
      while unresolved
        invariant unresolved ==> rounds <= 1
        invariant unresolved && rounds == 0 ==>
          menu == s0.menu + [key] && playbackIndex == s0.playbackIndex && isFirstPlayback == s0.isFirstPlayback
        invariant unresolved && rounds == 1 ==>
          two && (menu == ['1'] || menu == ['2']) &&
          goal == Session(menu, playbackIndex, if menu == ['2'] then false else isFirstPlayback)
        invariant !unresolved ==>
          menu == goal.menu && playbackIndex == goal.playbackIndex && isFirstPlayback == goal.isFirstPlayback &&
          rounds == if two then 2 else 1
        decreases |menu| + if unresolved then 1 else 0
      {
        rounds := rounds + 1;
        if menu == ['1'] {
          assert goal == State();
          unresolved := false;
        } else if menu == ['1', '1'] {
          assert rounds == 1 && two && goal == s0 && s0.menu == ['1'];
          menu := menu[..|menu| - 1];
          assert menu == ['1'];
        } else if menu == ['1', '2'] {
          assert rounds == 1 && goal == s0 && !two && s0.menu == ['1'];
          menu := menu[..|menu| - 1];
          assert menu == ['1'];
          unresolved := false;
        } else if menu == ['1', '0'] {
          assert rounds == 1 && goal == Initial && !two;
          unresolved := false;
          Restart();
        } else if menu == ['1', '#'] {
          assert rounds == 1 && goal == Initial && !two;
          unresolved := false;
          Restart();
        } else if menu == ['2'] {
          assert goal == State().(isFirstPlayback := false);
          if isFirstPlayback {
            isFirstPlayback := false;
          }
          unresolved := false;
        } else if menu == ['2', '1'] {
          assert rounds == 1 && two && goal == s0.(isFirstPlayback := false) && s0.menu == ['2'];
          menu := menu[..|menu| - 1];
          assert menu == ['2'];
        } else if menu == ['2', '2'] {
          assert rounds == 1 && two && s0.menu == ['2'];
          assert goal == s0.(playbackIndex := s0.playbackIndex + 1, isFirstPlayback := false);
          playbackIndex := playbackIndex + 1;
          menu := menu[..|menu| - 1];
          assert menu == ['2'];
        } else if menu == ['2', '0'] {
          assert rounds == 1 && goal == Initial && !two;
          unresolved := false;
          Restart();
        } else {
          assert rounds == 1 && goal == s0 && !two;
          menu := menu[..|menu| - 1];
          assert menu == s0.menu;
          unresolved := false;
        }
      }
      assert State() == goal;
      if RestingMenu(s0.menu) {
        TransitionResting(s0, key);
      }
      if Reachable(s0) {
        TransitionReachable(s0, key);
      }
    }

    /** `button_handler`: when off hook, read ADC channel 0 and run
        `navigate_menu` with the key of every band the sample lies in. The
        bands are disjoint, so that happens at most once (`presses` counts
        it); the sample is the value of the first 11 bits read. On hook,
        nothing is read and nothing changes. */
    method ButtonHandler(offHook: bool, dataIn: seq<bool>)
        returns (trace: seq<Adc.BusEvent>, ghost presses: nat)
      requires |dataIn| == Adc.ReadBits
      modifies this
      ensures !offHook ==> trace == [] && State() == old(State())
      ensures offHook ==> trace == Adc.ReadTrace(0)
      ensures State() == Handle(old(State()), KeyPress(offHook, Adc.FromBits(dataIn[..Adc.ReadBits - 1])))
      ensures presses <= 1
      ensures presses == 1 <==> offHook && Keypad.Decode(Adc.FromBits(dataIn[..Adc.ReadBits - 1])).Some?
    {
      presses := 0;
      if !offHook {
        return [], 0;
      }
      var btnval;
      btnval, trace := Adc.ReadAdc(0, dataIn);
      DecodeChain(btnval);
      ghost var r;
      if btnval > 960 { r := NavigateMenu('1'); presses := presses + 1; }
      if btnval > 870 && btnval < 910 { r := NavigateMenu('2'); presses := presses + 1; }
      if btnval > 760 && btnval < 810 { r := NavigateMenu('3'); presses := presses + 1; }
      if btnval > 700 && btnval < 750 { r := NavigateMenu('4'); presses := presses + 1; }
      if btnval > 650 && btnval < 670 { r := NavigateMenu('5'); presses := presses + 1; }
      if btnval > 580 && btnval < 610 { r := NavigateMenu('6'); presses := presses + 1; }
      if btnval > 540 && btnval < 570 { r := NavigateMenu('7'); presses := presses + 1; }
      if btnval > 500 && btnval < 525 { r := NavigateMenu('8'); presses := presses + 1; }
      if btnval > 470 && btnval < 490 { r := NavigateMenu('9'); presses := presses + 1; }
      if btnval > 420 && btnval < 440 { r := NavigateMenu('0'); presses := presses + 1; }
      if btnval > 445 && btnval < 470 { r := NavigateMenu('*'); presses := presses + 1; }
      if btnval > 390 && btnval < 420 { r := NavigateMenu('#'); presses := presses + 1; }
    }
  }

  /** `navigate_menu` sees the list `p` after appending `key` to `m`
      exactly when `m` is `p` without its last element and `key` is that
      element. */
  lemma AppendedMenu(m: seq<char>, key: char, p: seq<char>)
    requires |p| >= 1
    ensures m + [key] == p <==> m == p[..|p| - 1] && key == p[|p| - 1]
  {
  }

  /** What the first round of `navigate_menu`'s loop finds, branch by
      branch, once `key` is appended to the entry menu. */
  lemma FirstRound(s: Session, key: char)
    ensures s.menu + [key] == ['1'] ==>
      Transition(s, key) == s.(menu := ['1']) && !TwoRounds(s.menu, key)
    ensures s.menu + [key] == ['1', '1'] ==>
      s.menu == ['1'] && Transition(s, key) == s && TwoRounds(s.menu, key)
    ensures s.menu + [key] == ['1', '2'] ==>
      s.menu == ['1'] && Transition(s, key) == s && !TwoRounds(s.menu, key)
    ensures s.menu + [key] == ['1', '0'] || s.menu + [key] == ['1', '#'] ==>
      Transition(s, key) == Initial && !TwoRounds(s.menu, key)
    ensures s.menu + [key] == ['2'] ==>
      Transition(s, key) == s.(menu := ['2'], isFirstPlayback := false) && !TwoRounds(s.menu, key)
    ensures s.menu + [key] == ['2', '1'] ==>
      s.menu == ['2'] && key == '1' && TwoRounds(s.menu, key)
      && Transition(s, key) == s.(isFirstPlayback := false)
    ensures s.menu + [key] == ['2', '2'] ==>
      s.menu == ['2'] && key == '2' && TwoRounds(s.menu, key)
      && Transition(s, key) == s.(playbackIndex := s.playbackIndex + 1, isFirstPlayback := false)
    ensures s.menu + [key] == ['2', '0'] ==>
      Transition(s, key) == Initial && !TwoRounds(s.menu, key)
    ensures s.menu + [key] !in {['1'], ['1', '1'], ['1', '2'], ['1', '0'], ['1', '#'], ['2'], ['2', '1'], ['2', '2'], ['2', '0']} ==>
      Transition(s, key) == s && !TwoRounds(s.menu, key)
  {
    AppendedMenu(s.menu, key, ['1']);
    AppendedMenu(s.menu, key, ['2']);
    AppendedMenu(s.menu, key, ['1', '1']);
    AppendedMenu(s.menu, key, ['1', '2']);
    AppendedMenu(s.menu, key, ['1', '0']);
    AppendedMenu(s.menu, key, ['1', '#']);
    AppendedMenu(s.menu, key, ['2', '1']);
    AppendedMenu(s.menu, key, ['2', '2']);
    AppendedMenu(s.menu, key, ['2', '0']);
  }

  /** The band table, read as the chain of comparisons `button_handler`
      writes out. */
  lemma DecodeChain(v: int)
    ensures Keypad.Decode(v) ==
      if v > 960 then Some('1')
      else if 870 < v < 910 then Some('2')
      else if 760 < v < 810 then Some('3')
      else if 700 < v < 750 then Some('4')
      else if 650 < v < 670 then Some('5')
      else if 580 < v < 610 then Some('6')
      else if 540 < v < 570 then Some('7')
      else if 500 < v < 525 then Some('8')
      else if 470 < v < 490 then Some('9')
      else if 420 < v < 440 then Some('0')
      else if 445 < v < 470 then Some('*')
      else if 390 < v < 420 then Some('#')
      else None
  {
    if v > 960 { Keypad.DecodeBand(v, 0); }
    else if 870 < v < 910 { Keypad.DecodeBand(v, 1); }
    else if 760 < v < 810 { Keypad.DecodeBand(v, 2); }
    else if 700 < v < 750 { Keypad.DecodeBand(v, 3); }
    else if 650 < v < 670 { Keypad.DecodeBand(v, 4); }
    else if 580 < v < 610 { Keypad.DecodeBand(v, 5); }
    else if 540 < v < 570 { Keypad.DecodeBand(v, 6); }
    else if 500 < v < 525 { Keypad.DecodeBand(v, 7); }
    else if 470 < v < 490 { Keypad.DecodeBand(v, 8); }
    else if 420 < v < 440 { Keypad.DecodeBand(v, 9); }
    else if 445 < v < 470 { Keypad.DecodeBand(v, 10); }
    else if 390 < v < 420 { Keypad.DecodeBand(v, 11); }
    else { Keypad.DecodeGaps(v); }
  }
}
