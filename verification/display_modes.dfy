/**
 * Choice of the preferred display mode: among the modes running at about
 * 120 Hz or faster, the one with the largest panel area; when there is no
 * such mode, the one with the highest refresh rate. Both scans keep the
 * first of several equally good modes.
 */
module DisplayModes {
  import opened RenderTypes

  datatype Mode = Mode(id: int, width: int, height: int, refreshMilliHz: int)

  /** 119.5 Hz: the lowest rate that counts as "120-ish". */
  const HighRefreshMilliHz: int := 119500

  const JavaIntModulus: int := 0x1_0000_0000

  predicate IsHigh(m: Mode) {
    m.refreshMilliHz >= HighRefreshMilliHz
  }

  predicate AnyHigh(modes: seq<Mode>) {
    exists j :: 0 <= j < |modes| && IsHigh(modes[j])
  }

  /** A mathematical integer reduced to Java's 32-bit two's-complement `int`. */
  function JavaInt(x: int): (r: int)
    ensures -0x8000_0000 <= r < 0x8000_0000
    ensures (x - r) % JavaIntModulus == 0
    ensures -0x8000_0000 <= x < 0x8000_0000 ==> r == x
  {
    (x + 0x8000_0000) % JavaIntModulus - 0x8000_0000
  }

  /** The area the source compares: width times height in 32-bit `int` arithmetic. */
  function Area(m: Mode): int {
    JavaInt(m.width * m.height)
  }

  /** The first scan, over `modes[..n]`: the first high-rate mode of largest area. */
  function BestHigh(modes: seq<Mode>, n: nat): (b: Option<nat>)
    requires n <= |modes|
    ensures b.Some? <==> exists j :: 0 <= j < n && IsHigh(modes[j])
    ensures b.Some? ==> b.value < n && IsHigh(modes[b.value])
    ensures b.Some? ==> forall j :: 0 <= j < n && IsHigh(modes[j]) ==> Area(modes[j]) <= Area(modes[b.value])
    ensures b.Some? ==> forall j :: 0 <= j < b.value && IsHigh(modes[j]) ==> Area(modes[j]) < Area(modes[b.value])
  {
    if n == 0 then None
    else
      var b := BestHigh(modes, n - 1);
      var m := modes[n - 1];
      if !IsHigh(m) then b
      else if b.None? then Some(n - 1)
      else if Area(m) > Area(modes[b.value]) then Some(n - 1)
      else b
  }

  /** The fallback scan, over `modes[..n]`: the first mode of highest refresh rate. */
  function Fastest(modes: seq<Mode>, n: nat): (b: Option<nat>)
    requires n <= |modes|
    ensures b.Some? <==> n > 0
    ensures b.Some? ==> b.value < n
    ensures b.Some? ==> forall j :: 0 <= j < n ==> modes[j].refreshMilliHz <= modes[b.value].refreshMilliHz
    ensures b.Some? ==> forall j :: 0 <= j < b.value ==> modes[j].refreshMilliHz < modes[b.value].refreshMilliHz
  {
    if n == 0 then None
    else
      var b := Fastest(modes, n - 1);
      var m := modes[n - 1];
      if b.None? || m.refreshMilliHz > modes[b.value].refreshMilliHz then Some(n - 1)
      else b
  }

  /**
   * What the source promises of the chosen mode, independent of how the
   * scans find it.
   */
  predicate IsPreferredChoice(modes: seq<Mode>, i: int) {
    && 0 <= i < |modes|
    && if AnyHigh(modes) then
         && IsHigh(modes[i])
         && (forall j :: 0 <= j < |modes| && IsHigh(modes[j]) ==> Area(modes[j]) <= Area(modes[i]))
         && (forall j :: 0 <= j < i && IsHigh(modes[j]) ==> Area(modes[j]) < Area(modes[i]))
       else
         && (forall j :: 0 <= j < |modes| ==> modes[j].refreshMilliHz <= modes[i].refreshMilliHz)
         && (forall j :: 0 <= j < i ==> modes[j].refreshMilliHz < modes[i].refreshMilliHz)
  }

  /** The mode `requestHighRefreshDisplayMode` settles on, as an index into `modes`. */
  function PickMode(modes: seq<Mode>): (b: Option<nat>)
    ensures b.Some? <==> |modes| > 0
    ensures b.Some? ==> IsPreferredChoice(modes, b.value)
  {
    var high := BestHigh(modes, |modes|);
    if high.Some? then high else Fastest(modes, |modes|)
  }

  /** At most one index meets the promise: ties are broken towards the first mode. */
  lemma PreferredChoiceUnique(modes: seq<Mode>, i: int, k: int)
    requires IsPreferredChoice(modes, i) && IsPreferredChoice(modes, k)
    ensures i == k
  {
    var mi, mk := modes[i], modes[k];
    if AnyHigh(modes) {
      assert Area(mi) == Area(mk);
      assert i < k ==> Area(mi) < Area(mk);
      assert k < i ==> Area(mk) < Area(mi);
    } else {
      assert mi.refreshMilliHz == mk.refreshMilliHz;
      assert i < k ==> mi.refreshMilliHz < mk.refreshMilliHz;
      assert k < i ==> mk.refreshMilliHz < mi.refreshMilliHz;
    }
  }

  /** The picker chooses `i` exactly when `i` meets the promise. */
  lemma PickModeCharacterized(modes: seq<Mode>, i: int)
    ensures PickMode(modes) == Some(i) <==> IsPreferredChoice(modes, i)
  {
  }

  /**
   * The window-attribute update `requestHighRefreshDisplayMode` makes: the
   * chosen mode's id, or nothing at all when the display lists no modes.
   */
  function RequestHighRefreshDisplayMode(modes: seq<Mode>): (cmds: seq<Command>)
    ensures |modes| == 0 ==> cmds == []
    ensures |modes| > 0 ==> exists i :: IsPreferredChoice(modes, i) && cmds == [PreferDisplayMode(modes[i].id)]
    ensures |cmds| <= 1 && forall k :: 0 <= k < |cmds| ==> cmds[k].PreferDisplayMode?
  {
    match PickMode(modes)
    case None => []
    case Some(i) => [PreferDisplayMode(modes[i].id)]
  }
}
