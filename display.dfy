/**
 The two display helpers of the widget: the colour tier of a stat bar and
 the face the pet shows. They only read the state; the class names and
 emoji they return are represented by enumerations.
 */
module Display {
  import opened Stats

  /** Bar colours: green (good), yellow (warning), red (critical). */
  datatype Color = Green | Yellow | Red

  /** The animation the widget is playing; `Idle` when no action runs. */
  datatype Animation = Idle | Eat | Play | Drink | Sleep

  /** The pet's faces: asleep, munching, thrilled, smiling, dizzy, crying,
      sad, drowsy and beaming. */
  datatype Face = Asleep | Munching | Thrilled | Smiling | Dizzy | Crying | Sad | Drowsy | Beaming

  /** The colour of a stat bar: green above 60, yellow above 30, red
      otherwise. */
  function StatusColor(value: real): (c: Color)
    ensures c == Green <==> value > 60.0
    ensures c == Yellow <==> 30.0 < value <= 60.0
    ensures c == Red <==> value <= 30.0
  {
    if value > 60.0 then Green
    else if value > 30.0 then Yellow
    else Red
  }

  /** The face shown: a running animation decides first (sleep, eat, play,
      drink), then the first critical stat in the order health, hunger,
      happiness, energy, then a very happy pet beams, and otherwise it
      smiles. Drinking and the default share the smiling face. */
  function Expression(animation: Animation, p: PetState): (f: Face)
    ensures f == Asleep <==> animation == Sleep
    ensures f == Munching <==> animation == Eat
    ensures f == Thrilled <==> animation == Play
    ensures f == Dizzy <==> animation == Idle && p.health < 30.0
    ensures f == Crying <==> animation == Idle && p.health >= 30.0 && p.hunger < 30.0
    ensures f == Sad <==>
      animation == Idle && p.health >= 30.0 && p.hunger >= 30.0 && p.happiness < 30.0
    ensures f == Drowsy <==>
      animation == Idle && p.health >= 30.0 && p.hunger >= 30.0 && p.happiness >= 30.0
      && p.energy < 30.0
    ensures f == Beaming <==>
      animation == Idle && p.health >= 30.0 && p.hunger >= 30.0 && p.happiness > 80.0
      && p.energy >= 30.0
    ensures f == Smiling <==>
      animation == Drink
      || (animation == Idle && p.health >= 30.0 && p.hunger >= 30.0 && 30.0 <= p.happiness <= 80.0
          && p.energy >= 30.0)
  {
    match animation
    case Sleep => Asleep
    case Eat => Munching
    case Play => Thrilled
    case Drink => Smiling
    case Idle =>
      if p.health < 30.0 then Dizzy
      else if p.hunger < 30.0 then Crying
      else if p.happiness < 30.0 then Sad
      else if p.energy < 30.0 then Drowsy
      else if p.happiness > 80.0 then Beaming
      else Smiling
  }
}
