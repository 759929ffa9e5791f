/**
 * The one decision the pet renderer (src/PixelPet.jsx) takes from its input:
 * which face to draw. The renderer expects the mood as one of the words
 * 'happy' | 'neutral' | 'sad' and tests it with strict equality, so any other
 * value, in particular a number, draws the neutral face.
 */
module PixelPet {

  /** What a caller may pass as the `mood` prop: a string or a number. */
  datatype MoodProp = Word(text: string) | Number(value: real)

  datatype Face = Happy | Neutral | Sad

  /** The face drawn for a mood prop: `mood === 'sad'` and `mood === 'happy'`. */
  function FaceFor(mood: MoodProp): (f: Face)
    ensures f == Sad <==> mood == Word("sad")
    ensures f == Happy <==> mood == Word("happy")
    ensures mood.Number? ==> f == Neutral
  {
    if mood == Word("sad") then Sad
    else if mood == Word("happy") then Happy
    else Neutral
  }
}
