/** `ControlSettings` of voxygen/src/settings.rs: key bindings with their inverse, and
    the form in which they are saved. */
module Settings {
  import opened Wrappers

  /** What the player can do (voxygen/src/window.rs). */
  datatype GameInput =
    | Primary | Secondary | Slot1 | Slot2 | Slot3 | Slot4 | Slot5 | Slot6 | Slot7 | Slot8 | Slot9 | Slot10
    | ToggleCursor | MoveForward | MoveBack | MoveLeft | MoveRight | Jump | Sit | Dance | Glide | Climb
    | ClimbDown | SwimUp | SwimDown | Sneak | ToggleLantern | Mount | Chat | Command | Escape | Map | Bag
    | Social | Crafting | Spellbook | Settings | ToggleInterface | Help | ToggleDebug | Fullscreen
    | Screenshot | ToggleIngameUi | Roll | Respawn | Interact | ToggleWield | SwapLoadout | FreeLook
    | AutoWalk | CycleCamera | Select | AcceptGroupInvite | DeclineGroupInvite

  /** The keys bound by default; `OtherKey` stands for the remaining ones. */
  datatype KeyCode =
    | KeyTab | KeyEscape | KeyReturn | KeySlash | KeyW | KeyA | KeyS | KeyD | KeySpace | KeyK | KeyJ
    | KeyLShift | KeyLControl | KeyG | KeyF | KeyM | KeyB | KeyO | KeyC | KeyP | KeyN | KeyF1 | KeyF2 | KeyF3
    | KeyF11 | KeyF4 | KeyF6 | KeyE | KeyT | KeyL | KeyPeriod | Key0 | Key1 | Key2 | Key3 | Key4 | Key5
    | Key6 | Key7 | Key8 | Key9 | KeyQ | KeyLAlt | KeyY | KeyU | KeyI | OtherKey(code: nat)

  datatype MouseButton = LeftButton | RightButton | MiddleButton | OtherButton(id: nat)

  datatype KeyMouse = Key(key: KeyCode) | Mouse(button: MouseButton)

  /** `get_representative_binding` of voxygen/src/window.rs. */
  function Representative(input: GameInput): GameInput {
    match input
    case Jump => Jump
    case Climb => Jump
    case SwimUp => Jump
    case Respawn => Jump
    case FreeLook => FreeLook
    case AutoWalk => FreeLook
    case _ => input
  }

  /** `can_share_bindings`. */
  predicate CanShare(a: GameInput, b: GameInput) {
    Representative(a) == Representative(b)
  }

  /** The middle button, or left shift where trackpads have none. */
  function MiddleClickKey(macos: bool): KeyMouse {
    if macos then Key(KeyLShift) else Mouse(MiddleButton)
  }

  function DefaultBinding(input: GameInput, macos: bool): KeyMouse {
    match input
    case Primary => Mouse(LeftButton)
    case Secondary => Mouse(RightButton)
    case ToggleCursor => Key(KeyTab)
    case Escape => Key(KeyEscape)
    case Chat => Key(KeyReturn)
    case Command => Key(KeySlash)
    case MoveForward => Key(KeyW)
    case MoveLeft => Key(KeyA)
    case MoveBack => Key(KeyS)
    case MoveRight => Key(KeyD)
    case Jump => Key(KeySpace)
    case Sit => Key(KeyK)
    case Dance => Key(KeyJ)
    case Glide => Key(KeyLShift)
    case Climb => Key(KeySpace)
    case ClimbDown => Key(KeyLControl)
    case SwimUp => Key(KeySpace)
    case SwimDown => Key(KeyLShift)
    case Sneak => Key(KeyLControl)
    case ToggleLantern => Key(KeyG)
    case Mount => Key(KeyF)
    case Map => Key(KeyM)
    case Bag => Key(KeyB)
    case Social => Key(KeyO)
    case Crafting => Key(KeyC)
    case Spellbook => Key(KeyP)
    case Settings => Key(KeyN)
    case Help => Key(KeyF1)
    case ToggleInterface => Key(KeyF2)
    case ToggleDebug => Key(KeyF3)
    case Fullscreen => Key(KeyF11)
    case Screenshot => Key(KeyF4)
    case ToggleIngameUi => Key(KeyF6)
    case Roll => MiddleClickKey(macos)
    case Respawn => Key(KeySpace)
    case Interact => Key(KeyE)
    case ToggleWield => Key(KeyT)
    case FreeLook => Key(KeyL)
    case AutoWalk => Key(KeyPeriod)
    case CycleCamera => Key(Key0)
    case Slot1 => Key(Key1)
    case Slot2 => Key(Key2)
    case Slot3 => Key(Key3)
    case Slot4 => Key(Key4)
    case Slot5 => Key(Key5)
    case Slot6 => Key(Key6)
    case Slot7 => Key(Key7)
    case Slot8 => Key(Key8)
    case Slot9 => Key(Key9)
    case Slot10 => Key(KeyQ)
    case SwapLoadout => Key(KeyLAlt)
    case Select => Key(KeyY)
    case AcceptGroupInvite => Key(KeyU)
    case DeclineGroupInvite => Key(KeyI)
  }

  /** The list `default` walks through. */
  const LISTED: nat := 54

  function Listed(i: nat): GameInput
    requires i < LISTED
  {
    match i
    case 0 => Primary
    case 1 => Secondary
    case 2 => ToggleCursor
    case 3 => MoveForward
    case 4 => MoveBack
    case 5 => MoveLeft
    case 6 => MoveRight
    case 7 => Jump
    case 8 => Sit
    case 9 => Dance
    case 10 => Glide
    case 11 => Climb
    case 12 => ClimbDown
    case 13 => SwimUp
    case 14 => SwimDown
    case 15 => Sneak
    case 16 => ToggleLantern
    case 17 => Mount
    case 18 => Chat
    case 19 => Command
    case 20 => Escape
    case 21 => Map
    case 22 => Bag
    case 23 => Social
    case 24 => Crafting
    case 25 => Spellbook
    case 26 => Settings
    case 27 => ToggleInterface
    case 28 => Help
    case 29 => ToggleDebug
    case 30 => Fullscreen
    case 31 => Screenshot
    case 32 => ToggleIngameUi
    case 33 => Roll
    case 34 => Respawn
    case 35 => Interact
    case 36 => ToggleWield
    case 37 => FreeLook
    case 38 => AutoWalk
    case 39 => CycleCamera
    case 40 => Slot1
    case 41 => Slot2
    case 42 => Slot3
    case 43 => Slot4
    case 44 => Slot5
    case 45 => Slot6
    case 46 => Slot7
    case 47 => Slot8
    case 48 => Slot9
    case 49 => Slot10
    case 50 => SwapLoadout
    case 51 => Select
    case 52 => AcceptGroupInvite
    case 53 => DeclineGroupInvite
  }

  /** The list misses no input. */
  function PlaceOf(input: GameInput): (i: nat)
    ensures i < LISTED && Listed(i) == input
  {
    match input
    case Primary => 0
    case Secondary => 1
    case ToggleCursor => 2
    case MoveForward => 3
    case MoveBack => 4
    case MoveLeft => 5
    case MoveRight => 6
    case Jump => 7
    case Sit => 8
    case Dance => 9
    case Glide => 10
    case Climb => 11
    case ClimbDown => 12
    case SwimUp => 13
    case SwimDown => 14
    case Sneak => 15
    case ToggleLantern => 16
    case Mount => 17
    case Chat => 18
    case Command => 19
    case Escape => 20
    case Map => 21
    case Bag => 22
    case Social => 23
    case Crafting => 24
    case Spellbook => 25
    case Settings => 26
    case ToggleInterface => 27
    case Help => 28
    case ToggleDebug => 29
    case Fullscreen => 30
    case Screenshot => 31
    case ToggleIngameUi => 32
    case Roll => 33
    case Respawn => 34
    case Interact => 35
    case ToggleWield => 36
    case FreeLook => 37
    case AutoWalk => 38
    case CycleCamera => 39
    case Slot1 => 40
    case Slot2 => 41
    case Slot3 => 42
    case Slot4 => 43
    case Slot5 => 44
    case Slot6 => 45
    case Slot7 => 46
    case Slot8 => 47
    case Slot9 => 48
    case Slot10 => 49
    case SwapLoadout => 50
    case Select => 51
    case AcceptGroupInvite => 52
    case DeclineGroupInvite => 53
  }

  // ----- the inverse

  ghost predicate BoundTo(keybindings: map<GameInput, KeyMouse>, input: GameInput, key: KeyMouse) {
    input in keybindings && keybindings[input] == key
  }

  ghost predicate ListedAt(inverse: map<KeyMouse, set<GameInput>>, input: GameInput, key: KeyMouse) {
    key in inverse && input in inverse[key]
  }

  /** An input is listed at a key exactly if it is bound to it. */
  ghost predicate Inverse(keybindings: map<GameInput, KeyMouse>, inverse: map<KeyMouse, set<GameInput>>) {
    forall input, key :: ListedAt(inverse, input, key) <==> BoundTo(keybindings, input, key)
  }

  ghost predicate AllBound(keybindings: map<GameInput, KeyMouse>) {
    forall input: GameInput :: input in keybindings
  }

  function At(inverse: map<KeyMouse, set<GameInput>>, key: KeyMouse): set<GameInput> {
    if key in inverse then inverse[key] else {}
  }

  /** `input` is taken from the key it was bound to and listed at `key`. */
  ghost predicate Moved(keybindings: map<GameInput, KeyMouse>, inverse: map<KeyMouse, set<GameInput>>,
                        inverse': map<KeyMouse, set<GameInput>>, input: GameInput, key: KeyMouse)
  {
    forall k ::
      var others := if BoundTo(keybindings, input, k) then At(inverse, k) - {input} else At(inverse, k);
      At(inverse', k) == if k == key then others + {input} else others
  }

  // ----- the saved form

  /** What differs from the defaults. */
  ghost function Delta(keybindings: map<GameInput, KeyMouse>, macos: bool): map<GameInput, KeyMouse> {
    map input | input in keybindings && keybindings[input] != DefaultBinding(input, macos) :: keybindings[input]
  }

  /** The defaults, overridden by what was saved. */
  ghost predicate Overrides(keybindings: map<GameInput, KeyMouse>, saved: map<GameInput, KeyMouse>, macos: bool) {
    && AllBound(keybindings)
    && forall input: GameInput ::
         keybindings[input] == if input in saved then saved[input] else DefaultBinding(input, macos)
  }

  /** Saving and loading restores the bindings exactly if no input is unbound. */
  lemma SavedAndLoaded(keybindings: map<GameInput, KeyMouse>, loaded: map<GameInput, KeyMouse>, macos: bool)
    requires Overrides(loaded, Delta(keybindings, macos), macos)
    ensures loaded == keybindings <==> AllBound(keybindings)
  {
    hide DefaultBinding;
    var saved := Delta(keybindings, macos);
    if AllBound(keybindings) {
      forall input: GameInput
        ensures loaded[input] == keybindings[input]
      {
        assert input in saved <==> keybindings[input] != DefaultBinding(input, macos);
      }
    }
  }

  /** Loading and saving restores the saved form exactly if it lists no default. */
  lemma LoadedAndSaved(saved: map<GameInput, KeyMouse>, loaded: map<GameInput, KeyMouse>, macos: bool)
    requires Overrides(loaded, saved, macos)
    ensures Delta(loaded, macos) == saved <==>
      forall input :: input in saved ==> saved[input] != DefaultBinding(input, macos)
  {
    hide DefaultBinding;
    var again := Delta(loaded, macos);
    assert forall input :: input in again <==> input in saved && saved[input] != DefaultBinding(input, macos);
    if again == saved {
      forall input | input in saved
        ensures saved[input] != DefaultBinding(input, macos)
      {
        assert input in again;
      }
    }
  }

  /** The inverse determines the keys of the bound inputs and nothing else: two inverses of
      the same bindings differ at most in keys listed without inputs. */
  lemma InverseIsUnique(keybindings: map<GameInput, KeyMouse>, a: map<KeyMouse, set<GameInput>>,
          b: map<KeyMouse, set<GameInput>>)
    requires Inverse(keybindings, a) && Inverse(keybindings, b)
    ensures forall key :: At(a, key) == At(b, key)
  {
    forall key
      ensures At(a, key) == At(b, key)
    {
      forall input
        ensures input in At(a, key) <==> input in At(b, key)
      {
        assert input in At(a, key) <==> ListedAt(a, input, key);
        assert input in At(b, key) <==> ListedAt(b, input, key);
      }
    }
  }

  class ControlSettings {
    const macos: bool
    var keybindings: map<GameInput, KeyMouse>
    var inverse: map<KeyMouse, set<GameInput>>

    ghost predicate Valid()
      reads this
    {
      Inverse(keybindings, inverse) && AllBound(keybindings)
    }

    function GetBinding(input: GameInput): Option<KeyMouse>
      reads this
    {
      if input in keybindings then Some(keybindings[input]) else None
    }

    /** `has_conflicting_bindings`. */
    method HasConflictingBindings(key: KeyMouse) returns (conflict: bool)
      ensures conflict <==> exists a, b :: a in At(inverse, key) && b in At(inverse, key) && !CanShare(a, b)
    {
      hide CanShare;
      if key in inverse {
        var inputs := inverse[key];
        var as' := inputs;
        while as' != {}
          invariant as' <= inputs
          invariant forall a, b :: a in inputs && a !in as' && b in inputs ==> CanShare(a, b)
          decreases as'
        {
          var a :| a in as';
          as' := as' - {a};
          var bs := inputs;
          while bs != {}
            invariant bs <= inputs && a in inputs
            invariant forall b :: b in inputs && b !in bs ==> CanShare(a, b)
            decreases bs
          {
            var b :| b in bs;
            bs := bs - {b};
            if !CanShare(a, b) {
              assert key in inverse && a in At(inverse, key) && b in At(inverse, key);
              return true;
            }
          }
        }
      }
      return false;
    }

    /** `insert_binding` does not take an earlier binding back: the inverse stays right
        exactly if the input was unbound or bound to the same key. */
    method InsertBinding(input: GameInput, key: KeyMouse)
      modifies this
      ensures keybindings == old(keybindings)[input := key]
      ensures inverse == old(inverse)[key := At(old(inverse), key) + {input}]
      ensures old(Inverse(keybindings, inverse)) ==>
        (Inverse(keybindings, inverse) <==> (input in old(keybindings) ==> old(keybindings)[input] == key))
    {
      keybindings := keybindings[input := key];
      inverse := inverse[key := At(inverse, key) + {input}];
      if old(Inverse(keybindings, inverse)) {
        Inserted(old(keybindings), old(inverse), input, key);
      }
    }

    /** `modify_binding` keeps the inverse right. */
    method ModifyBinding(input: GameInput, key: KeyMouse)
      modifies this
      ensures keybindings == old(keybindings)[input := key]
      ensures Moved(old(keybindings), old(inverse), inverse, input, key)
      ensures old(Inverse(keybindings, inverse)) ==> Inverse(keybindings, inverse)
      ensures old(Valid()) ==> Valid()
    {
      var oldBinding := GetBinding(input);
      if oldBinding.Some? {
        inverse := inverse[oldBinding.value := At(inverse, oldBinding.value) - {input}];
      }
      inverse := inverse[key := At(inverse, key) + {input}];
      keybindings := keybindings[input := key];
      Moves(old(keybindings), old(inverse), input, key);
      hide Inverse, Moved, At;
      if old(Inverse(keybindings, inverse)) {
        Modified(old(keybindings), old(inverse), inverse, input, key);
      }
    }

    /** `default`. */
    constructor Default(macos: bool)
      ensures Valid() && this.macos == macos
      ensures Overrides(keybindings, map[], macos)
    {
      this.macos := macos;
      keybindings, inverse := map[], map[];
      new;
      hide DefaultBinding, Listed, PlaceOf;
      for i := 0 to LISTED
        invariant forall input :: PlaceOf(input) < i ==> input in keybindings
        invariant forall input :: input in keybindings ==> keybindings[input] == DefaultBinding(input, macos)
        invariant Inverse(keybindings, inverse)
      {
        var input := Listed(i);
        InsertBinding(input, DefaultBinding(input, macos));
      }
    }

    /** Loading the saved form, walked through in any order. */
    constructor FromSerde(saved: map<GameInput, KeyMouse>, macos: bool)
      ensures Valid() && this.macos == macos
      ensures Overrides(keybindings, saved, macos)
    {
      this.macos := macos;
      keybindings, inverse := map[], map[];
      new;
      hide DefaultBinding;
      var settings := new ControlSettings.Default(macos);
      keybindings, inverse := settings.keybindings, settings.inverse;
      var todo := saved.Keys;
      while todo != {}
        invariant todo <= saved.Keys && Valid()
        invariant Overrides(keybindings, saved - todo, macos)
        decreases todo
      {
        var input :| input in todo;
        todo := todo - {input};
        ModifyBinding(input, saved[input]);
      }
      assert saved - {} == saved;
    }

    /** Saving, the bindings walked through in any order. */
    method IntoSerde() returns (saved: map<GameInput, KeyMouse>)
      ensures saved == Delta(keybindings, macos)
    {
      hide DefaultBinding;
      saved := map[];
      var todo := keybindings.Keys;
      while todo != {}
        invariant todo <= keybindings.Keys
        invariant saved == Delta(keybindings, macos) - todo
        decreases todo
      {
        var input :| input in todo;
        todo := todo - {input};
        if DefaultBinding(input, macos) != keybindings[input] {
          saved := saved[input := keybindings[input]];
        }
      }
    }
  }

  lemma Inserted(keybindings: map<GameInput, KeyMouse>, inverse: map<KeyMouse, set<GameInput>>, input: GameInput,
          key: KeyMouse)
    requires Inverse(keybindings, inverse)
    ensures Inverse(keybindings[input := key], inverse[key := At(inverse, key) + {input}]) <==>
            (input in keybindings ==> keybindings[input] == key)
  {
    var keybindings', inverse' := keybindings[input := key], inverse[key := At(inverse, key) + {input}];
    if input in keybindings && keybindings[input] != key {
      assert BoundTo(keybindings, input, keybindings[input]);
      assert ListedAt(inverse', input, keybindings[input]) && !BoundTo(keybindings', input, keybindings[input]);
    } else {
      forall g, k
        ensures ListedAt(inverse', g, k) <==> BoundTo(keybindings', g, k)
      {
        assert ListedAt(inverse, g, k) <==> BoundTo(keybindings, g, k);
      }
    }
  }

  lemma Moves(keybindings: map<GameInput, KeyMouse>, inverse: map<KeyMouse, set<GameInput>>, input: GameInput,
          key: KeyMouse)
    ensures
      var unlisted :=
        if input in keybindings then inverse[keybindings[input] := At(inverse, keybindings[input]) - {input}]
        else inverse;
      Moved(keybindings, inverse, unlisted[key := At(unlisted, key) + {input}], input, key)
  {
  }

  lemma Modified(keybindings: map<GameInput, KeyMouse>, inverse: map<KeyMouse, set<GameInput>>,
          inverse': map<KeyMouse, set<GameInput>>,
                 input: GameInput, key: KeyMouse)
    requires Inverse(keybindings, inverse)
    requires Moved(keybindings, inverse, inverse', input, key)
    ensures Inverse(keybindings[input := key], inverse')
  {
    forall g, k
      ensures ListedAt(inverse', g, k) <==> BoundTo(keybindings[input := key], g, k)
    {
      assert At(inverse', k) == At(inverse', k);
      assert ListedAt(inverse, g, k) <==> BoundTo(keybindings, g, k);
      assert ListedAt(inverse', g, k) <==> g in At(inverse', k);
      assert ListedAt(inverse, g, k) <==> g in At(inverse, k);
    }
  }
}
