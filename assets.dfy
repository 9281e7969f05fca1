/**
 * The piece-template catalog of the asset registry: fifteen room pieces, each a
 * bitmap file paired with the pattern of doors open on its four sides, the
 * random pickers over the template lists, and their teardown.
 *
 * File handles and bitmaps are opaque tokens; a bitmap is known only by the
 * file it was read from. A random choice is a caller-supplied roll.
 */
module AssetCatalog {

  datatype FileHandle = FileHandle(path: string)

  datatype Pixmap = Pixmap(source: FileHandle)

  datatype PieceTemplate = PieceTemplate(pixmap: Pixmap, doorsOpen: seq<bool>)

  datatype RoomObjectTemplate = RoomObjectTemplate(pixmap: Pixmap)

  /** The exceptions the pickers can raise. */
  datatype Failure = IllegalArgument | IndexOutOfBounds

  datatype Result<T> = Ok(value: T) | Err(error: Failure)

  const FOLDER_DATA: string := "data/"
  const PIECE_COUNT: nat := 15

  /** The door patterns of the fifteen templates, in the order they are added. */
  const DOOR_PATTERNS: seq<seq<bool>> := [
    [false, true, false, false],
    [false, true, false, true],
    [false, false, false, true],
    [false, false, true, false],
    [true, false, true, false],
    [true, false, false, false],
    [true, true, false, false],
    [false, true, true, false],
    [false, false, true, true],
    [true, false, false, true],
    [true, true, false, true],
    [true, true, true, false],
    [false, true, true, true],
    [true, false, true, true],
    [true, true, true, true]
  ]

  // ---------------------------------------------------------------------------
  // File names

  function DigitChar(d: nat): char
    requires d < 10
  {
    "0123456789"[d]
  }

  function CharDigit(c: char): nat
  {
    if '0' <= c <= '9' then (c as int - '0' as int) as nat else 0
  }

  /** The decimal notation string concatenation gives a number. */
  function Decimal(n: nat): (s: string)
    ensures |s| >= 1
    decreases n
  {
    if n < 10 then [DigitChar(n)] else Decimal(n / 10) + [DigitChar(n % 10)]
  }

  /** Reads a string of decimal digits back into a number. */
  function ParseDecimal(s: string): nat
    decreases |s|
  {
    if s == [] then 0 else ParseDecimal(s[..|s| - 1]) * 10 + CharDigit(s[|s| - 1])
  }

  lemma {:induction false} DecimalRoundTrip(n: nat)
    ensures ParseDecimal(Decimal(n)) == n
    decreases n
  {
    if n >= 10 {
      DecimalRoundTrip(n / 10);
      var s := Decimal(n / 10) + [DigitChar(n % 10)];
      assert s[..|s| - 1] == Decimal(n / 10);
    }
  }

  /** The file of the template numbered `i` (from 1), under the platform's separator `sep`. */
  function PieceHandle(sep: string, i: nat): FileHandle
  {
    FileHandle(FOLDER_DATA + "piecetemplates" + sep + Decimal(i) + "_piece.png")
  }

  /** Different template numbers name different files. */
  lemma PieceHandlesDistinct(sep: string, i: nat, j: nat)
    requires i != j
    ensures PieceHandle(sep, i) != PieceHandle(sep, j)
  {
    var pre := FOLDER_DATA + "piecetemplates" + sep;
    var suf := "_piece.png";
    var a, b := Decimal(i), Decimal(j);
    if PieceHandle(sep, i) == PieceHandle(sep, j) {
      var p, q := pre + a + suf, pre + b + suf;
      assert p == PieceHandle(sep, i).path && q == PieceHandle(sep, j).path;
      assert |a| == |b|;
      assert a == p[|pre|..|pre| + |a|];
      assert b == q[|pre|..|pre| + |b|];
      DecimalRoundTrip(i);
      DecimalRoundTrip(j);
      assert false;
    }
  }

  // ---------------------------------------------------------------------------
  // The catalog

  /** The templates the setup appends: template `k` is file `k + 1` with door pattern `k`. */
  function Catalog(sep: string): (c: seq<PieceTemplate>)
    ensures |c| == PIECE_COUNT
  {
    seq(PIECE_COUNT, k requires 0 <= k < PIECE_COUNT => PieceTemplate(Pixmap(PieceHandle(sep, k + 1)), DOOR_PATTERNS[k]))
  }

  /** A door pattern: one flag for each of the four sides, at least one of them open. */
  predicate DoorPattern(p: seq<bool>)
  {
    |p| == 4 && true in p
  }

  /** Every template of the catalog has a door pattern with at least one open door. */
  lemma CatalogPatternsWellFormed(sep: string, k: int)
    requires 0 <= k < PIECE_COUNT
    ensures DoorPattern(Catalog(sep)[k].doorsOpen)
  {
    assert DOOR_PATTERNS[k][0] || DOOR_PATTERNS[k][1] || DOOR_PATTERNS[k][2] || DOOR_PATTERNS[k][3];
  }

  /** No two templates of the catalog share a door pattern, nor a file. */
  lemma CatalogDistinct(sep: string, i: int, j: int)
    requires 0 <= i < j < PIECE_COUNT
    ensures Catalog(sep)[i].doorsOpen != Catalog(sep)[j].doorsOpen
    ensures Catalog(sep)[i].pixmap != Catalog(sep)[j].pixmap
  {
    PieceHandlesDistinct(sep, i + 1, j + 1);
  }

  /** The four door flags read as a binary number, the first flag the most significant. */
  function Mask(p: seq<bool>): (m: nat)
    requires |p| == 4
    ensures m < 16
  {
    (if p[0] then 8 else 0) + (if p[1] then 4 else 0) + (if p[2] then 2 else 0) + (if p[3] then 1 else 0)
  }

  /** For each mask, the catalog position of the pattern with that mask (mask 0, no door, has none). */
  const MASK_INDEX: seq<nat> := [0, 2, 3, 8, 0, 1, 7, 12, 5, 9, 4, 13, 6, 10, 11, 14]

  /** The catalog position of a door pattern. */
  function PatternIndex(p: seq<bool>): (k: nat)
    requires DoorPattern(p)
    ensures k < PIECE_COUNT
  {
    MASK_INDEX[Mask(p)]
  }

  /** `PatternIndex` inverts the catalog order in both directions. */
  lemma PatternIndexInverse(p: seq<bool>, k: int)
    requires 0 <= k < PIECE_COUNT
    ensures DoorPattern(DOOR_PATTERNS[k]) && PatternIndex(DOOR_PATTERNS[k]) == k
    ensures DoorPattern(p) ==> DOOR_PATTERNS[PatternIndex(p)] == p
  {
    if DoorPattern(p) {
      assert p == [p[0], p[1], p[2], p[3]];
    }
  }

  /** Every door pattern is the pattern of some template of the catalog. */
  lemma CatalogComplete(sep: string, p: seq<bool>)
    requires DoorPattern(p)
    ensures exists k :: 0 <= k < PIECE_COUNT && Catalog(sep)[k].doorsOpen == p
  {
    PatternIndexInverse(p, 0);
    assert Catalog(sep)[PatternIndex(p)].doorsOpen == p;
  }

  /** The catalog holds exactly one template for each door pattern, so its patterns are the fifteen non-empty sets of sides. */
  lemma CatalogOnePerPattern(sep: string, p: seq<bool>)
    requires DoorPattern(p)
    ensures exists k :: 0 <= k < PIECE_COUNT && Catalog(sep)[k].doorsOpen == p &&
                        forall j :: 0 <= j < PIECE_COUNT && Catalog(sep)[j].doorsOpen == p ==> j == k
  {
    CatalogComplete(sep, p);
    var k :| 0 <= k < PIECE_COUNT && Catalog(sep)[k].doorsOpen == p;
    forall j | 0 <= j < PIECE_COUNT && Catalog(sep)[j].doorsOpen == p
      ensures j == k
    {
      if j < k { CatalogDistinct(sep, j, k); }
      if k < j { CatalogDistinct(sep, k, j); }
    }
  }

  /** Only the last template has all four doors open. */
  lemma CatalogOnlyLastAllOpen(sep: string, k: int)
    requires 0 <= k < PIECE_COUNT
    ensures Catalog(sep)[k].doorsOpen == [true, true, true, true] <==> k == 14
  {
  }

  // ---------------------------------------------------------------------------
  // Random choice and list access

  /**
   * `MathUtils.random(range)`, an integer in [0, range] drawn as `nextInt(range + 1)`;
   * `roll` is the number drawn. A negative range makes the draw throw.
   */
  function RandomInt(range: int, roll: int): (r: Result<int>)
    requires 0 <= range ==> 0 <= roll <= range
    ensures r.Ok? <==> 0 <= range
    ensures r.Ok? ==> 0 <= r.value <= range
    ensures r.Err? ==> r.error == IllegalArgument
  {
    if range + 1 <= 0 then Err(IllegalArgument) else Ok(roll)
  }

  /** Indexed access of a list, which throws outside [0, |s|). */
  function Get<T>(s: seq<T>, i: int): (r: Result<T>)
    ensures r.Ok? <==> 0 <= i < |s|
    ensures r.Ok? ==> r.value == s[i]
    ensures r.Err? ==> r.error == IndexOutOfBounds
  {
    if 0 <= i < |s| then Ok(s[i]) else Err(IndexOutOfBounds)
  }

  function PiecePixmap(t: PieceTemplate): Pixmap
  {
    t.pixmap
  }

  function RoomObjectPixmap(t: RoomObjectTemplate): Pixmap
  {
    t.pixmap
  }

  /** The bitmaps of a list of templates, in order. */
  function Pixmaps<T>(ts: seq<T>, pixmap: T -> Pixmap): (ps: seq<Pixmap>)
    ensures |ps| == |ts| && forall k :: 0 <= k < |ts| ==> ps[k] == pixmap(ts[k])
    decreases |ts|
  {
    if ts == [] then [] else Pixmaps(ts[..|ts| - 1], pixmap) + [pixmap(ts[|ts| - 1])]
  }

  /** The room-object templates read from a list of files. */
  function RoomObjectsFrom(hs: seq<FileHandle>): (ts: seq<RoomObjectTemplate>)
    ensures |ts| == |hs| && forall k :: 0 <= k < |hs| ==> ts[k] == RoomObjectTemplate(Pixmap(hs[k]))
    decreases |hs|
  {
    if hs == [] then [] else RoomObjectsFrom(hs[..|hs| - 1]) + [RoomObjectTemplate(Pixmap(hs[|hs| - 1]))]
  }

  // ---------------------------------------------------------------------------
  // The registry

  class Assets {
    var pieceTemplates: seq<PieceTemplate>
    var roomObjectTemplates: seq<RoomObjectTemplate>
    /** The bitmaps disposed of so far, in order. */
    var disposed: seq<Pixmap>

    constructor ()
      ensures pieceTemplates == [] && roomObjectTemplates == [] && disposed == []
    {
      pieceTemplates := [];
      roomObjectTemplates := [];
      disposed := [];
    }

    method AddPieceTemplate(fileHandle: FileHandle, doorsOpen: seq<bool>)
      modifies this`pieceTemplates
      ensures pieceTemplates == old(pieceTemplates) + [PieceTemplate(Pixmap(fileHandle), doorsOpen)]
    {
      var pixmap := Pixmap(fileHandle);
      pieceTemplates := pieceTemplates + [PieceTemplate(pixmap, doorsOpen)];
    }

    /** Appends the fifteen piece templates in order; the room-object file list is empty, so no room object is added. */
    method SetupPieceTemplates(sep: string)
      modifies this`pieceTemplates, this`roomObjectTemplates
      ensures pieceTemplates == old(pieceTemplates) + Catalog(sep)
      ensures roomObjectTemplates == old(roomObjectTemplates)
    {
      var handles := new FileHandle[15];
      for i := 1 to 16
        invariant forall k :: 0 <= k < i - 1 ==> handles[k] == PieceHandle(sep, k + 1)
        invariant pieceTemplates == old(pieceTemplates) && roomObjectTemplates == old(roomObjectTemplates)
      {
        handles[i - 1] := PieceHandle(sep, i);
      }

      for k := 0 to PIECE_COUNT
        invariant forall j :: 0 <= j < PIECE_COUNT ==> handles[j] == PieceHandle(sep, j + 1)
        invariant pieceTemplates == old(pieceTemplates) + Catalog(sep)[..k]
        invariant roomObjectTemplates == old(roomObjectTemplates)
      {
        AddPieceTemplate(handles[k], DOOR_PATTERNS[k]);
        assert Catalog(sep)[..k + 1] == Catalog(sep)[..k] + [Catalog(sep)[k]];
      }
      assert Catalog(sep)[..PIECE_COUNT] == Catalog(sep);

      var roomObjectHandles := new FileHandle[0];
      AddRoomObjectTemplates(roomObjectHandles);
      assert roomObjectHandles[..] == [];
    }

    /** Appends one room-object template per handle, in the order of the handles. */
    method AddRoomObjectTemplates(roomObjectHandles: array<FileHandle>)
      modifies this`roomObjectTemplates
      ensures roomObjectTemplates == old(roomObjectTemplates) + RoomObjectsFrom(roomObjectHandles[..])
    {
      for i := 0 to roomObjectHandles.Length
        invariant roomObjectTemplates == old(roomObjectTemplates) + RoomObjectsFrom(roomObjectHandles[..i])
      {
        var pixmap := Pixmap(roomObjectHandles[i]);
        roomObjectTemplates := roomObjectTemplates + [RoomObjectTemplate(pixmap)];
        assert roomObjectHandles[..i + 1][..i] == roomObjectHandles[..i];
      }
      assert roomObjectHandles[..roomObjectHandles.Length] == roomObjectHandles[..];
    }

    /** Disposes of every template's bitmap, pieces first, and empties both lists. */
    method Clear()
      modifies this`pieceTemplates, this`roomObjectTemplates, this`disposed
      ensures pieceTemplates == [] && roomObjectTemplates == []
      ensures disposed == old(disposed) + Pixmaps(old(pieceTemplates), PiecePixmap) + Pixmaps(old(roomObjectTemplates), RoomObjectPixmap)
    {
      for i := 0 to |pieceTemplates|
        invariant pieceTemplates == old(pieceTemplates)
        invariant roomObjectTemplates == old(roomObjectTemplates)
        invariant disposed == old(disposed) + Pixmaps(pieceTemplates[..i], PiecePixmap)
      {
        disposed := disposed + [pieceTemplates[i].pixmap];
        assert pieceTemplates[..i + 1][..i] == pieceTemplates[..i];
      }
      assert pieceTemplates[..|pieceTemplates|] == pieceTemplates;
      pieceTemplates := [];

      for i := 0 to |roomObjectTemplates|
        invariant pieceTemplates == []
        invariant roomObjectTemplates == old(roomObjectTemplates)
        invariant disposed == old(disposed) + Pixmaps(old(pieceTemplates), PiecePixmap) + Pixmaps(roomObjectTemplates[..i], RoomObjectPixmap)
      {
        disposed := disposed + [roomObjectTemplates[i].pixmap];
        assert roomObjectTemplates[..i + 1][..i] == roomObjectTemplates[..i];
      }
      assert roomObjectTemplates[..|roomObjectTemplates|] == roomObjectTemplates;
      roomObjectTemplates := [];
    }

    /** A random piece template: the draw is over [0, size - 1], which throws on an empty list. */
    function GetRandomPieceTemplate(roll: int): (r: Result<PieceTemplate>)
      requires 0 < |pieceTemplates| ==> 0 <= roll < |pieceTemplates|
      reads this
      ensures |pieceTemplates| == 0 ==> r == Err(IllegalArgument)
      ensures 0 < |pieceTemplates| ==> r == Ok(pieceTemplates[roll])
    {
      match RandomInt(|pieceTemplates| - 1, roll)
      case Err(e) => Err(e)
      case Ok(i) => Get(pieceTemplates, i)
    }

    /** A random room-object template as written: the draw is over [0, size], one past the last index. */
    function GetRandomRoomObjectTemplate(roll: int): (r: Result<RoomObjectTemplate>)
      requires 0 <= roll <= |roomObjectTemplates|
      reads this
      ensures r.Ok? <==> roll < |roomObjectTemplates|
      ensures r.Ok? ==> r.value == roomObjectTemplates[roll]
      ensures r.Err? ==> r.error == IndexOutOfBounds
    {
      Get(roomObjectTemplates, RandomInt(|roomObjectTemplates|, roll).value)
    }

    /** The room-object picker with the draw over [0, size - 1], like the piece picker. */
    function GetRandomRoomObjectTemplateInBounds(roll: int): (r: Result<RoomObjectTemplate>)
      requires 0 < |roomObjectTemplates| ==> 0 <= roll < |roomObjectTemplates|
      reads this
      ensures |roomObjectTemplates| == 0 ==> r == Err(IllegalArgument)
      ensures 0 < |roomObjectTemplates| ==> r == Ok(roomObjectTemplates[roll])
    {
      match RandomInt(|roomObjectTemplates| - 1, roll)
      case Err(e) => Err(e)
      case Ok(i) => Get(roomObjectTemplates, i)
    }
  }

  /** Every template of a non-empty list is one the piece picker can return. */
  lemma PiecePickerReachesAll(a: Assets, t: PieceTemplate)
    requires t in a.pieceTemplates
    ensures exists roll :: 0 <= roll < |a.pieceTemplates| && a.GetRandomPieceTemplate(roll) == Ok(t)
  {
    var k :| 0 <= k < |a.pieceTemplates| && a.pieceTemplates[k] == t;
    assert a.GetRandomPieceTemplate(k) == Ok(t);
  }

  /**
   * The room-object picker fails on the draw equal to the size, which the
   * random source can produce, and on the empty list the setup leaves it
   * fails on every draw.
   */
  lemma RoomObjectPickerOffByOne(a: Assets)
    ensures a.GetRandomRoomObjectTemplate(|a.roomObjectTemplates|) == Err(IndexOutOfBounds)
    ensures RandomInt(|a.roomObjectTemplates|, |a.roomObjectTemplates|).Ok?
    ensures a.roomObjectTemplates == [] ==>
      forall roll :: 0 <= roll <= |a.roomObjectTemplates| ==> a.GetRandomRoomObjectTemplate(roll) == Err(IndexOutOfBounds)
  {
  }

  /** The corrected room-object picker never indexes out of bounds. */
  lemma RoomObjectPickerInBounds(a: Assets, roll: int)
    requires 0 < |a.roomObjectTemplates| && 0 <= roll < |a.roomObjectTemplates|
    ensures a.GetRandomRoomObjectTemplateInBounds(roll).Ok?
    ensures a.GetRandomRoomObjectTemplateInBounds(roll).value in a.roomObjectTemplates
  {
  }
}
