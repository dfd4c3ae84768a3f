/** A food item of the web demo: a position, a nutritional value and an
    availability flag that eating clears and a refresh sets again. */
module Pantry {
  import opened Plane

  /** What a new food item is worth. */
  const FOOD_VALUE: real := 10.0

  class Food {
    var pos: Vec2
    var value: real
    var available: bool

    /** `at` stands for the two `random` draws of the canvas size. */
    constructor (at: Vec2)
      ensures pos == at && value == FOOD_VALUE && available
      ensures !Eaten()
    {
      pos := at;
      value := FOOD_VALUE;
      available := true;
    }

    /** The `eaten` getter. */
    predicate Eaten()
      reads this`available
    {
      !available
    }

    /** Makes the item available again; nothing else changes. */
    method Refresh()
      modifies this`available
      ensures available && !Eaten()
    {
      available := true;
    }

    /** Marks the item eaten, moves it to `spot` (the two `random` draws)
        and returns its value, which stays as it was. */
    method Eat(spot: Vec2) returns (v: real)
      modifies this`available, this`pos
      ensures Eaten() && pos == spot
      ensures v == value
    {
      available := false;
      pos := spot;
      v := value;
    }
  }
}
