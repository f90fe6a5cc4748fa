/** The character (`RedHatBoy`) as the gameplay core sees it.  Its state
    machine (src/game/rhb.rs) is not part of this model: the core reads four
    of its values and calls a handful of its operations, and how the
    character answers each call is a parameter of the model. */
module Rhb {
  import opened Engine

  /** What the world and the obstacles read of the character. */
  datatype Boy = Boy(posY: int, velocityY: int, boundingBox: Rect, walkingSpeed: int)

  /** An operation called on the character. */
  datatype Call =
    | RunRight
    | Slide
    | Jump
    | Update
    | LandOn(y: int)
    | HitCeiling
    | KnockOut

  /** How the character's state answers one call. */
  type Character = (Boy, Call) -> Boy

  /** The character after answering `calls`, first to last. */
  function Perform(character: Character, boy: Boy, calls: seq<Call>): Boy
    decreases |calls|
  {
    if calls == [] then boy else Perform(character, character(boy, calls[0]), calls[1..])
  }

  /** Performing a sequence of calls and then one more. */
  lemma {:induction false} PerformSnoc(character: Character, boy: Boy, calls: seq<Call>, c: Call)
    ensures Perform(character, boy, calls + [c]) == character(Perform(character, boy, calls), c)
    decreases |calls|
  {
    if calls == [] {
      assert [] + [c] == [c];
    } else {
      assert (calls + [c])[1..] == calls[1..] + [c];
      PerformSnoc(character, character(boy, calls[0]), calls[1..], c);
    }
  }

  /** Performing two sequences of calls one after the other. */
  lemma {:induction false} PerformAppend(character: Character, boy: Boy, first: seq<Call>, second: seq<Call>)
    ensures Perform(character, boy, first + second)
         == Perform(character, Perform(character, boy, first), second)
    decreases |second|
  {
    if second == [] {
      assert first + second == first;
    } else {
      var init, last := second[..|second| - 1], second[|second| - 1];
      assert second == init + [last];
      assert first + second == (first + init) + [last];
      PerformSnoc(character, boy, first + init, last);
      PerformAppend(character, boy, first, init);
      PerformSnoc(character, Perform(character, boy, first), init, last);
    }
  }
}
