/**
 * The device data monitor (src/components/DartsioDataDisplay.tsx): every reading
 * from the board becomes the latest reading and is appended to a history that
 * keeps the 20 newest; an error only sets the message; a disconnect clears
 * everything. The monitor lists the five newest readings, newest first.
 */
module DataMonitor {
  import opened Wrappers

  /** One reading as the device layer delivers it; coordinates and raw text are optional. */
  datatype Reading = Reading(deviceId: string, x: Option<real>, y: Option<real>, rawData: Option<string>, timestamp: int)

  const Capacity: nat := 20
  const Listed: nat := 5

  /** The n newest entries of s, in arrival order. */
  function Newest<T>(s: seq<T>, n: nat): seq<T> {
    s[|s| - Min(n, |s|)..]
  }

  /** `[...prev.slice(-19), data]`: a negative start longer than the list keeps it whole. */
  function Keep(h: seq<Reading>, d: Reading): seq<Reading> {
    h[(if |h| > 19 then |h| - 19 else 0)..] + [d]
  }

  /** `dataHistory.slice().reverse().slice(0, 5)` */
  function Recent(h: seq<Reading>): (r: seq<Reading>)
    ensures |r| == Min(Listed, |h|)
    ensures forall k :: 0 <= k < |r| ==> r[k] == h[|h| - 1 - k]
  {
    if |h| == 0 || Listed == 0 then []
    else [h[|h| - 1]] + Recent(h[..|h| - 1])[..Min(Listed, |h|) - 1]
  }

  class DataDisplay {
    var dataHistory: seq<Reading>
    var lastData: Option<Reading>
    var errorMessage: string
    /** Every reading since the last disconnect, oldest first. */
    ghost var arrivals: seq<Reading>

    /**
     * The history is the newest readings since the last disconnect, at most
     * the capacity, and the latest reading is the newest of them.
     */
    ghost predicate Valid()
      reads this
    {
      dataHistory == Newest(arrivals, Capacity)
      && (lastData == if |arrivals| == 0 then None else Some(arrivals[|arrivals| - 1]))
    }

    constructor()
      ensures Valid() && dataHistory == [] && lastData == None && errorMessage == "" && arrivals == []
    {
      dataHistory := [];
      lastData := None;
      errorMessage := "";
      arrivals := [];
    }

    /** `handleData`: latest reading, appended with the oldest beyond the capacity dropped, error cleared. */
    method HandleData(d: Reading)
      requires Valid()
      modifies this
      ensures Valid()
      ensures arrivals == old(arrivals) + [d]
      ensures lastData == Some(d) && dataHistory == Keep(old(dataHistory), d) && errorMessage == ""
    {
      KeepIsNewest(arrivals, d);
      lastData := Some(d);
      dataHistory := dataHistory[(if |dataHistory| > 19 then |dataHistory| - 19 else 0)..] + [d];
      errorMessage := "";
      arrivals := arrivals + [d];
    }

    /** `handleError`: only the message changes. */
    method HandleError(message: string)
      requires Valid()
      modifies this
      ensures Valid()
      ensures errorMessage == message
      ensures dataHistory == old(dataHistory) && lastData == old(lastData) && arrivals == old(arrivals)
    {
      errorMessage := message;
    }

    /** The reset when the connection is lost. */
    method Disconnect()
      modifies this
      ensures Valid()
      ensures dataHistory == [] && lastData == None && errorMessage == "" && arrivals == []
    {
      dataHistory := [];
      lastData := None;
      errorMessage := "";
      arrivals := [];
    }
  }

  // ---------------------------------------------------------------------------
  // Lemmas
  // ---------------------------------------------------------------------------

  /**
   * Keeping the newest twenty and then appending with `Keep` is the same as
   * appending to all arrivals and keeping the newest twenty.
   */
  lemma KeepIsNewest(a: seq<Reading>, d: Reading)
    ensures Keep(Newest(a, Capacity), d) == Newest(a + [d], Capacity)
  {
    var h := Newest(a, Capacity);
    var k := if |h| > 19 then |h| - 19 else 0;
    var m := |a| - Min(Capacity, |a|);
    var m' := |a| + 1 - Min(Capacity, |a| + 1);
    assert m' == m + k;
    assert h[k..] == a[m'..];
    assert (a + [d])[m'..] == a[m'..] + [d];
  }

  /**
   * The history holds at most twenty readings, ends with the latest one, and
   * lists the retained ones in arrival order: it is a contiguous tail of all arrivals.
   */
  lemma NewestIsBoundedTail<T>(s: seq<T>, n: nat)
    ensures |Newest(s, n)| == Min(n, |s|) && |Newest(s, n)| <= n
    ensures forall k :: 0 <= k < |Newest(s, n)| ==> Newest(s, n)[k] == s[|s| - |Newest(s, n)| + k]
    ensures n > 0 && |s| > 0 ==> Newest(s, n)[|Newest(s, n)| - 1] == s[|s| - 1]
    ensures |s| <= n ==> Newest(s, n) == s
  {
  }

  /**
   * Appending never grows the history beyond twenty and ends it with the new
   * reading; a full history loses exactly its oldest entry.
   */
  lemma KeepBounded(h: seq<Reading>, d: Reading)
    ensures |Keep(h, d)| <= Capacity
    ensures |Keep(h, d)| == Min(Capacity, |h| + 1)
    ensures Keep(h, d)[|Keep(h, d)| - 1] == d
    ensures |h| < Capacity ==> Keep(h, d) == h + [d]
    ensures |h| == Capacity ==> Keep(h, d) == h[1..] + [d]
  {
  }

  /** The list shown is the newest five readings in reverse arrival order. */
  lemma RecentIsNewestReversed(h: seq<Reading>)
    ensures |Recent(h)| <= Listed
    ensures |h| > 0 ==> Recent(h)[0] == h[|h| - 1]
    ensures forall k :: 0 <= k < |Recent(h)| ==> Recent(h)[k] == Newest(h, Listed)[|Newest(h, Listed)| - 1 - k]
  {
  }
}
