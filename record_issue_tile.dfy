/**
 * The quick-settings tile that starts and stops recording an issue: one
 * `isRecording` toggle, and the rendering of the tile's Boolean state from it.
 *
 * Resource strings are parameters (the tile label and the "stop" and "start"
 * secondary labels); icons are the two drawables the tile chooses between.
 */
module RecordIssueTile {
  import opened Wrappers

  /** `Tile.STATE_INACTIVE` and `Tile.STATE_ACTIVE`. */
  const STATE_INACTIVE: int := 1
  const STATE_ACTIVE: int := 2

  /** `TILE_SPEC`. */
  const TILE_SPEC: string := "record_issue"

  /** The class name of `android.widget.Switch`. */
  const SWITCH_CLASS_NAME: string := "android.widget.Switch"

  datatype Icon = IconOn | IconOff

  /** The resource strings the tile reads. */
  datatype TileStrings = TileStrings(tileLabel: string, stopLabel: string, startLabel: string)

  /** `"$label, $secondaryLabel"`, or just the tile label when the secondary label is empty. */
  function ContentDescription(tileLabel: string, secondaryLabel: string): (r: string)
    ensures tileLabel <= r
    ensures |r| == if secondaryLabel == [] then |tileLabel| else |tileLabel| + 2 + |secondaryLabel|
  {
    if secondaryLabel == [] then tileLabel else tileLabel + ", " + secondaryLabel
  }

  /** Reads the secondary label back out of a content description, knowing the tile label. */
  function SecondaryOf(tileLabel: string, description: string): (secondaryLabel: string)
    requires tileLabel <= description
  {
    if |description| < |tileLabel| + 2 then [] else description[|tileLabel| + 2..]
  }

  /**
   * The content description determines the secondary label: the tile label is
   * always its prefix, and what follows ", " is the secondary label.
   */
  lemma {:induction false} ContentDescriptionRoundTrip(tileLabel: string, secondaryLabel: string)
    ensures SecondaryOf(tileLabel, ContentDescription(tileLabel, secondaryLabel)) == secondaryLabel
    ensures secondaryLabel == [] <==> ContentDescription(tileLabel, secondaryLabel) == tileLabel
    ensures secondaryLabel != [] ==> ContentDescription(tileLabel, secondaryLabel)[|tileLabel|..|tileLabel| + 2] == ", "
  {
    var r := ContentDescription(tileLabel, secondaryLabel);
    if secondaryLabel != [] {
      assert r == tileLabel + ", " + secondaryLabel;
      assert r[|tileLabel| + 2..] == secondaryLabel;
      assert r[|tileLabel|..|tileLabel| + 2] == ", ";
    }
  }

  /** `QSTile.BooleanState`, reduced to the fields the tile sets. */
  class BooleanState {
    var stateLabel: string
    var value: bool
    var state: int
    var forceExpandIcon: bool
    var secondaryLabel: string
    var icon: Icon
    var contentDescription: string
    var expandedAccessibilityClassName: string
    var handlesLongClick: bool

    /**
     * A fresh state: active, with a false value, handling long clicks. The
     * framework's labels and icon start null; here the labels start empty and
     * the icon as `IconOff`, placeholders that `handleUpdateState` overwrites
     * before anything reads them.
     */
    constructor ()
      ensures stateLabel == [] && !value && state == STATE_ACTIVE
      ensures !forceExpandIcon && secondaryLabel == [] && icon == IconOff
      ensures contentDescription == [] && expandedAccessibilityClassName == []
      ensures handlesLongClick
    {
      stateLabel := [];
      value := false;
      state := STATE_ACTIVE;
      forceExpandIcon := false;
      secondaryLabel := [];
      icon := IconOff;
      contentDescription := [];
      expandedAccessibilityClassName := [];
      handlesLongClick := true;
    }
  }

  class RecordIssueTile {
    const strings: TileStrings
    var isRecording: bool
    /** Number of `refreshState` requests made by clicks. */
    ghost var refreshRequests: nat

    constructor (strings: TileStrings)
      ensures this.strings == strings && !isRecording && refreshRequests == 0
    {
      this.strings := strings;
      isRecording := false;
      refreshRequests := 0;
    }

    /** `newTileState`: a fresh state carrying the tile label that does not handle long clicks. */
    method NewTileState() returns (s: BooleanState)
      ensures fresh(s)
      ensures s.stateLabel == strings.tileLabel && !s.handlesLongClick
    {
      s := new BooleanState();
      s.stateLabel := strings.tileLabel;
      s.handlesLongClick := false;
    }

    /** `handleClick`: flips the recording flag and asks for a refresh. */
    method HandleClick()
      modifies this`isRecording, this`refreshRequests
      ensures isRecording == !old(isRecording)
      ensures refreshRequests == old(refreshRequests) + 1
    {
      isRecording := !isRecording;
      refreshRequests := refreshRequests + 1;
    }

    /** `getLongClickIntent`: the tile has none. */
    function LongClickIntent(): (intent: Option<string>)
      ensures intent.None?
    {
      None
    }

    /**
     * `handleUpdateState`: renders the recording flag into `s`. Fields the
     * method does not set (`handlesLongClick`) keep their value.
     */
    method HandleUpdateState(s: BooleanState)
      modifies s
      ensures s.value == isRecording
      ensures s.state == (if isRecording then STATE_ACTIVE else STATE_INACTIVE)
      ensures s.forceExpandIcon == !isRecording
      ensures s.secondaryLabel == (if isRecording then strings.stopLabel else strings.startLabel)
      ensures s.icon == (if isRecording then IconOn else IconOff)
      ensures s.stateLabel == strings.tileLabel
      ensures s.contentDescription == ContentDescription(strings.tileLabel, s.secondaryLabel)
      ensures s.expandedAccessibilityClassName == SWITCH_CLASS_NAME
      ensures s.handlesLongClick == old(s.handlesLongClick)
    {
      if isRecording {
        s.value := true;
        s.state := STATE_ACTIVE;
        s.forceExpandIcon := false;
        s.secondaryLabel := strings.stopLabel;
        s.icon := IconOn;
      } else {
        s.value := false;
        s.state := STATE_INACTIVE;
        s.forceExpandIcon := true;
        s.secondaryLabel := strings.startLabel;
        s.icon := IconOff;
      }
      s.stateLabel := strings.tileLabel;
      s.contentDescription := ContentDescription(s.stateLabel, s.secondaryLabel);
      s.expandedAccessibilityClassName := SWITCH_CLASS_NAME;
    }
  }
}
