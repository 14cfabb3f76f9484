/** The part of crossterm's input events that the application looks at. */
module Events {

  /** `KeyCode`: the four codes the application matches, and every other code
      (arrows left and right, Esc, function keys, ...) as `OtherKey`. */
  datatype KeyCode = Down | Up | Enter | Char(c: char) | OtherKey

  /** `KeyEventKind`. */
  datatype KeyEventKind = Press | Repeat | Release

  /** `Event`: a key event (its modifiers and state are matched by `..`, so they
      are not kept), or any other event (focus, mouse, paste, resize). */
  datatype Event = Key(code: KeyCode, kind: KeyEventKind) | NonKey

  /** One call of `event::read()`: an event, or the I/O error it returns. */
  datatype Input = Received(event: Event) | ReadFailed

  /** Pressing `q`, the only event that ends the event loop. */
  const QuitPress: Event := Key(Char('q'), Press)

  /** True for the four events `handle_events` acts on. */
  predicate IsHandled(e: Event)
  {
    e.Key? && e.kind == Press && (e.code.Down? || e.code.Up? || e.code.Enter? || e.code == Char('q'))
  }
}
