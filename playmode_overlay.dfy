/**
 * The play-mode overlay: a menu of the server's play modes with a cursor that the arrow keys
 * move, ENTER asking the server for the mode under the cursor and ESCAPE dismissing it.
 */
module PlaymodeMenu {
  import opened Wrappers

  /** The keys the overlay tells apart; any other key code is `Other`. */
  datatype Key = Down | Up | Enter | Escape | Other(code: int)

  /**
   * The cursor after `key` over a menu of `count` modes: DOWN moves one down but not past the
   * last mode, UP one up but not past the first; other keys leave it.
   */
  function Moved(index: int, count: int, key: Key): (r: int)
    ensures key.Down? ==> r <= index + 1 && r <= count - 1 && (r == index + 1 || r == count - 1)
    ensures key.Up? ==> r >= index - 1 && r >= 0 && (r == index - 1 || r == 0)
    ensures !key.Down? && !key.Up? ==> r == index
  {
    match key
    case Down => if index + 1 < count - 1 then index + 1 else count - 1
    case Up => if index - 1 > 0 then index - 1 else 0
    case _ => index
  }

  /** A cursor on a mode stays on a mode whatever key is pressed. */
  lemma MovedInRange(index: int, count: int, key: Key)
    requires 0 <= index < count
    ensures 0 <= Moved(index, count, key) < count
  {
  }

  /** The cursor after a sequence of key presses, the first pressed first. */
  function MovedAll(index: int, count: int, keys: seq<Key>): int
    decreases |keys|
  {
    if keys == [] then index else MovedAll(Moved(index, count, keys[0]), count, keys[1..])
  }

  /** Starting on a mode, no sequence of keys moves the cursor off the menu. */
  lemma {:induction false} MovedAllInRange(index: int, count: int, keys: seq<Key>)
    requires 0 <= index < count
    ensures 0 <= MovedAll(index, count, keys) < count
    decreases |keys|
  {
    if keys != [] {
      MovedInRange(index, count, keys[0]);
      MovedAllInRange(Moved(index, count, keys[0]), count, keys[1..]);
    }
  }

  /** Over an empty menu DOWN puts the cursor at -1, before any mode. */
  lemma EmptyMenuDown(index: int)
    requires index >= -1
    ensures Moved(index, 0, Down) == -1
  {
  }

  /** UP undoes DOWN except on the last mode, and DOWN undoes UP except on the first. */
  lemma UpUndoesDown(index: int, count: int)
    requires 0 <= index < count
    ensures index < count - 1 ==> Moved(Moved(index, count, Down), count, Up) == index
    ensures index > 0 ==> Moved(Moved(index, count, Up), count, Down) == index
  {
  }

  /** What a key press did. */
  datatype Reaction =
    | Ignored
    | CursorMoved
    | Requested(mode: string)   // the server was asked for `mode`, and the overlay closed
    | Closed                    // the overlay closed without a request
    | NoModes                   // `modes` was never set: the source dereferences null
    | NoSuchMode(index: int)    // ENTER with the cursor off the menu: the array access fails

  class PlaymodeOverlay {
    /** The cursor. */
    var index: int
    /** The game state's play modes; `None` when there was no game state. */
    var modes: Option<seq<string>>
    /** Whether the screen under the overlay takes input. */
    var masterEnabled: bool
    /** Whether the overlay is still on the screen. */
    var attached: bool
    /** The play modes asked of the server, oldest first. */
    var requests: seq<string>

    /** Opening the overlay puts the cursor on the first mode and disables the screen under it. */
    constructor (playModes: Option<seq<string>>)
      ensures index == 0 && modes == playModes
      ensures !masterEnabled && attached && requests == []
    {
      index := 0;
      modes := playModes;
      masterEnabled := false;
      attached := true;
      requests := [];
    }

    /**
     * `keyPressed`: DOWN and UP move the cursor over the modes; ENTER asks the server for the
     * mode under the cursor, then re-enables the screen under the overlay and removes the
     * overlay; ESCAPE does the last two only; other keys do nothing. A failing access to
     * `modes` ends the call before anything changes.
     */
    method KeyPressed(key: Key) returns (reaction: Reaction)
      modifies this`index, this`masterEnabled, this`attached, this`requests
      ensures key.Other? ==> reaction == Ignored
      ensures (key.Down? || key.Enter?) && modes.None? ==> reaction == NoModes
      ensures key.Down? && modes.Some? ==> reaction == CursorMoved && index == Moved(old(index), |modes.value|, key)
      // UP does not look at the modes, so it moves the cursor even when there are none.
      ensures key.Up? ==> reaction == CursorMoved && index == Moved(old(index), 0, key)
      ensures key.Enter? && modes.Some? ==>
        if 0 <= old(index) < |modes.value| then reaction == Requested(modes.value[old(index)])
        else reaction == NoSuchMode(old(index))
      ensures key.Escape? ==> reaction == Closed
      ensures reaction.Requested? || reaction.Closed? ==> masterEnabled && !attached
      ensures !(reaction.Requested? || reaction.Closed?) ==>
        masterEnabled == old(masterEnabled) && attached == old(attached)
      ensures requests == if reaction.Requested? then old(requests) + [reaction.mode] else old(requests)
      ensures !reaction.CursorMoved? ==> index == old(index)
    {
      match key {
        case Down =>
          if modes.None? {
            return NoModes;
          }
          index := Moved(index, |modes.value|, key);
          reaction := CursorMoved;
        case Up =>
          index := Moved(index, 0, key);
          reaction := CursorMoved;
        case Enter =>
          if modes.None? {
            return NoModes;
          }
          if !(0 <= index < |modes.value|) {
            return NoSuchMode(index);
          }
          var mode := modes.value[index];
          requests := requests + [mode];
          masterEnabled, attached := true, false;
          reaction := Requested(mode);
        case Escape =>
          masterEnabled, attached := true, false;
          reaction := Closed;
        case Other(_) =>
          reaction := Ignored;
      }
    }
  }
}
