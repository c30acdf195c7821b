/** The default key bindings seen from the keys, and which of them conflict. */
module Defaults {
  import opened Settings

  /** What the letters do by default. */
  predicate LetterDoes(key: KeyCode, input: GameInput) {
    match key
    case KeyA => input.MoveLeft?
    case KeyB => input.Bag?
    case KeyC => input.Crafting?
    case KeyD => input.MoveRight?
    case KeyE => input.Interact?
    case KeyF => input.Mount?
    case KeyG => input.ToggleLantern?
    case KeyI => input.DeclineGroupInvite?
    case KeyJ => input.Dance?
    case KeyK => input.Sit?
    case KeyL => input.FreeLook?
    case KeyM => input.Map?
    case KeyN => input.Settings?
    case KeyO => input.Social?
    case KeyP => input.Spellbook?
    case KeyQ => input.Slot10?
    case KeyS => input.MoveBack?
    case KeyT => input.ToggleWield?
    case KeyU => input.AcceptGroupInvite?
    case KeyW => input.MoveForward?
    case KeyY => input.Select?
    case _ => false
  }

  /** What the digits and function keys do. */
  predicate NumberDoes(key: KeyCode, input: GameInput) {
    match key
    case Key0 => input.CycleCamera?
    case Key1 => input.Slot1?
    case Key2 => input.Slot2?
    case Key3 => input.Slot3?
    case Key4 => input.Slot4?
    case Key5 => input.Slot5?
    case Key6 => input.Slot6?
    case Key7 => input.Slot7?
    case Key8 => input.Slot8?
    case Key9 => input.Slot9?
    case KeyF1 => input.Help?
    case KeyF2 => input.ToggleInterface?
    case KeyF3 => input.ToggleDebug?
    case KeyF4 => input.Screenshot?
    case KeyF6 => input.ToggleIngameUi?
    case KeyF11 => input.Fullscreen?
    case _ => false
  }

  /** What the other keys do. */
  predicate OtherDoes(key: KeyCode, input: GameInput, macos: bool) {
    match key
    case KeySpace => input.Jump? || input.Climb? || input.SwimUp? || input.Respawn?
    case KeyLShift => input.Glide? || input.SwimDown? || (input.Roll? && macos)
    case KeyLControl => input.ClimbDown? || input.Sneak?
    case KeyLAlt => input.SwapLoadout?
    case KeyTab => input.ToggleCursor?
    case KeyEscape => input.Escape?
    case KeyReturn => input.Chat?
    case KeySlash => input.Command?
    case KeyPeriod => input.AutoWalk?
    case _ => false
  }

  predicate Does(key: KeyMouse, input: GameInput, macos: bool) {
    match key
    case Mouse(LeftButton) => input.Primary?
    case Mouse(RightButton) => input.Secondary?
    case Mouse(MiddleButton) => input.Roll? && !macos
    case Mouse(OtherButton(_)) => false
    case Key(k) => LetterDoes(k, input) || NumberDoes(k, input) || OtherDoes(k, input, macos)
  }

  lemma LetterIsDone(input: GameInput, key: KeyCode, macos: bool)
    requires LetterDoes(key, input)
    ensures DefaultBinding(input, macos) == Key(key)
  {
  }

  lemma NumberIsDone(input: GameInput, key: KeyCode, macos: bool)
    requires NumberDoes(key, input)
    ensures DefaultBinding(input, macos) == Key(key)
  {
  }

  lemma OtherIsDone(input: GameInput, key: KeyCode, macos: bool)
    requires OtherDoes(key, input, macos)
    ensures DefaultBinding(input, macos) == Key(key)
  {
  }

  lemma MouseIsDone(input: GameInput, button: MouseButton, macos: bool)
    requires Does(Mouse(button), input, macos)
    ensures DefaultBinding(input, macos) == Mouse(button)
  {
    hide LetterDoes, NumberDoes, OtherDoes;
  }

  lemma DefaultIsDone(input: GameInput, macos: bool)
    ensures Does(DefaultBinding(input, macos), input, macos)
  {
  }

  lemma DoneByDefault(input: GameInput, key: KeyMouse, macos: bool)
    requires Does(key, input, macos)
    ensures DefaultBinding(input, macos) == key
  {
    hide DefaultBinding, LetterDoes, NumberDoes, OtherDoes;
    if key.Mouse? {
      MouseIsDone(input, key.button, macos);
    } else if LetterDoes(key.key, input) {
      LetterIsDone(input, key.key, macos);
    } else if NumberDoes(key.key, input) {
      NumberIsDone(input, key.key, macos);
    } else {
      OtherIsDone(input, key.key, macos);
    }
  }

  /** The table of defaults, read from the keys. */
  lemma DoesByDefault(input: GameInput, key: KeyMouse, macos: bool)
    ensures Does(key, input, macos) <==> DefaultBinding(input, macos) == key
  {
    hide Does, DefaultBinding;
    DefaultIsDone(input, macos);
    if Does(key, input, macos) {
      DoneByDefault(input, key, macos);
    }
  }

  // ----- conflicts

  /** Two different inputs share a key only if both move the player upwards, or both look
      after themselves. */
  lemma SharesIf(a: GameInput, b: GameInput)
    ensures CanShare(a, b) <==>
      a == b
      || ((a.Jump? || a.Climb? || a.SwimUp? || a.Respawn?) && (b.Jump? || b.Climb? || b.SwimUp? || b.Respawn?))
      || ((a.FreeLook? || a.AutoWalk?) && (b.FreeLook? || b.AutoWalk?))
  {
  }

  /** The defaults conflict, at exactly two keys: gliding and swimming down, climbing down and
      sneaking. */
  lemma DefaultConflicts(keybindings: map<GameInput, KeyMouse>, inverse: map<KeyMouse, set<GameInput>>, macos: bool,
                         key: KeyMouse)
    requires Inverse(keybindings, inverse) && Overrides(keybindings, map[], macos)
    ensures (exists a, b :: a in At(inverse, key) && b in At(inverse, key) && !CanShare(a, b)) <==>
            key == Key(KeyLShift) || key == Key(KeyLControl)
  {
    hide Inverse, Overrides, At, CanShare, Does;
    forall input
      ensures input in At(inverse, key) <==> Does(key, input, macos)
    {
      AtDefault(keybindings, inverse, macos, key, input);
    }
    TwoConflicts(macos);
    if key == Key(KeyLShift) {
      assert Glide in At(inverse, key) && SwimDown in At(inverse, key);
    } else if key == Key(KeyLControl) {
      assert ClimbDown in At(inverse, key) && Sneak in At(inverse, key);
    } else {
      forall a, b | a in At(inverse, key) && b in At(inverse, key)
        ensures CanShare(a, b)
      {
        OthersShare(key, a, b, macos);
      }
    }
  }

  lemma TwoConflicts(macos: bool)
    ensures Does(Key(KeyLShift), Glide, macos) && Does(Key(KeyLShift), SwimDown, macos) && !CanShare(Glide, SwimDown)
    ensures Does(Key(KeyLControl), ClimbDown, macos) && Does(Key(KeyLControl), Sneak, macos)
    ensures !CanShare(ClimbDown, Sneak)
  {
  }

  /** Which group of keys does something. */
  lemma OneGroup(key: KeyCode, a: GameInput, b: GameInput, macos: bool)
    requires LetterDoes(key, a)
    ensures !NumberDoes(key, b) && !OtherDoes(key, b, macos)
  {
  }

  lemma OtherGroup(key: KeyCode, a: GameInput, b: GameInput, macos: bool)
    requires NumberDoes(key, a)
    ensures !OtherDoes(key, b, macos)
  {
  }

  lemma SharesSelf(a: GameInput)
    ensures CanShare(a, a)
  {
  }

  lemma OthersShare(key: KeyMouse, a: GameInput, b: GameInput, macos: bool)
    requires Does(key, a, macos) && Does(key, b, macos) && key != Key(KeyLShift) && key != Key(KeyLControl)
    ensures CanShare(a, b)
  {
    hide LetterDoes, NumberDoes, OtherDoes, CanShare;
    SharesSelf(a);
    if key.Key? {
      KeysShare(key.key, a, b, macos);
    }
  }

  lemma KeysShare(k: KeyCode, a: GameInput, b: GameInput, macos: bool)
    requires LetterDoes(k, a) || NumberDoes(k, a) || OtherDoes(k, a, macos)
    requires LetterDoes(k, b) || NumberDoes(k, b) || OtherDoes(k, b, macos)
    requires k != KeyLShift && k != KeyLControl
    ensures CanShare(a, b)
  {
    hide LetterDoes, NumberDoes, OtherDoes, CanShare;
    SharesSelf(a);
    if LetterDoes(k, a) {
      OneGroup(k, a, b, macos);
      LetterAlone(k, a, b);
    } else if LetterDoes(k, b) {
      OneGroup(k, b, a, macos);
    } else if NumberDoes(k, a) {
      OtherGroup(k, a, b, macos);
      NumberAlone(k, a, b);
    } else if NumberDoes(k, b) {
      OtherGroup(k, b, a, macos);
    } else {
      OtherShares(k, a, b, macos);
    }
  }

  lemma LetterAlone(key: KeyCode, a: GameInput, b: GameInput)
    requires LetterDoes(key, a) && LetterDoes(key, b)
    ensures a == b
  {
  }

  lemma NumberAlone(key: KeyCode, a: GameInput, b: GameInput)
    requires NumberDoes(key, a) && NumberDoes(key, b)
    ensures a == b
  {
  }

  lemma OtherShares(key: KeyCode, a: GameInput, b: GameInput, macos: bool)
    requires OtherDoes(key, a, macos) && OtherDoes(key, b, macos) && key != KeyLShift && key != KeyLControl
    ensures CanShare(a, b)
  {
    hide Representative;
    if key == KeySpace {
      SpaceShares(a, b, macos);
    } else {
      OtherAlone(key, a, b, macos);
    }
  }

  lemma SpaceShares(a: GameInput, b: GameInput, macos: bool)
    requires OtherDoes(KeySpace, a, macos) && OtherDoes(KeySpace, b, macos)
    ensures CanShare(a, b)
  {
  }

  lemma OtherAlone(key: KeyCode, a: GameInput, b: GameInput, macos: bool)
    requires OtherDoes(key, a, macos) && OtherDoes(key, b, macos)
    requires key != KeyLShift && key != KeyLControl && key != KeySpace
    ensures a == b
  {
  }

  lemma AtDefault(keybindings: map<GameInput, KeyMouse>, inverse: map<KeyMouse, set<GameInput>>, macos: bool,
                  key: KeyMouse, input: GameInput)
    requires Inverse(keybindings, inverse) && Overrides(keybindings, map[], macos)
    ensures input in At(inverse, key) <==> Does(key, input, macos)
  {
    hide Does, DefaultBinding;
    DoesByDefault(input, key, macos);
    assert input in At(inverse, key) <==> ListedAt(inverse, input, key);
    assert ListedAt(inverse, input, key) <==> BoundTo(keybindings, input, key);
  }
}
