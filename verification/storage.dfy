/** Browser `localStorage` as the hooks use it: a map from keys to stored
    text. The JSON text is abstract: a slot holds either text written by
    someone else, whose parse the caller supplies, or the text this
    application wrote for a list, which `JSON.parse` reads back as that list. */
module Storage {

  /** The result of `JSON.parse` on stored text, as far as the hooks look at it. */
  datatype Parsed<T> = Malformed | NotAnArray | ArrayOf(items: seq<T>)

  /** `Raw(text)`: text found under a key. `Written(items)`: the text
      `JSON.stringify(items)` put there. */
  datatype Slot<T> = Raw(text: string) | Written(items: seq<T>)

  /** What `JSON.parse(localStorage.getItem(key))` yields for a present slot. */
  function ParseSlot<T>(slot: Slot<T>, parse: string -> Parsed<T>): (r: Parsed<T>)
    ensures slot.Written? ==> r == ArrayOf(slot.items)
  {
    match slot
    case Raw(text) => parse(text)
    case Written(items) => ArrayOf(items)
  }
}
