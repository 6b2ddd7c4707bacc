/** The terminal-library values the view code handles: input events and the
    scrollbar state. */
module Tui {
  import opened Prelude

  /** `crossterm::event::KeyCode`, restricted to the codes a keyboard can send
      that matter here, plus a few others to stand for the rest. */
  datatype KeyCode = Char(c: char) | Esc | Up | Down | Left | Right | Enter | Backspace | Tab

  /** One flag of `KeyModifiers`; a key event carries a set of them. */
  datatype Modifier = Shift | Control | Alt | Super | Hyper | Meta

  datatype KeyEventKind = Press | Repeat | Release

  datatype KeyEvent = KeyEvent(code: KeyCode, modifiers: set<Modifier>, kind: KeyEventKind)

  /** `crossterm::event::Event`. */
  datatype Event =
    | Key(key: KeyEvent)
    | Mouse
    | Resize(columns: nat, rows: nat)
    | FocusGained
    | FocusLost
    | Paste(text: string)

  /** `ratatui::widgets::ScrollbarState`; the core only ever sets its position. */
  datatype ScrollbarState = ScrollbarState(contentLength: usize, position: usize, viewportContentLength: usize)
  {
    /** `ScrollbarState::position`: the same state at a new position. */
    function WithPosition(p: usize): ScrollbarState { this.(position := p) }
  }

  /** `ScrollbarState::default()`. */
  const DefaultScrollbar := ScrollbarState(0, 0, 0)
}
