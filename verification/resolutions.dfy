/** The resolution summary of `obtener_info`: the heights of the available
  * formats, each once, highest first (twitter_downloader.py:104-110). */
module Resolutions {
  import opened Effects
  import opened Sorting

  /** `f.get("height")` is truthy: present and not zero. */
  predicate HasHeight(f: FormatRecord) {
    f.height.Some? && f.height.value != 0
  }

  /** The set the loop builds: every truthy height of the records. */
  ghost function TruthyHeights(formats: seq<FormatRecord>): set<nat> {
    set f | f in formats && HasHeight(f) :: f.height.value
  }

  /** The loop of twitter_downloader.py:105-108. */
  method CollectHeights(formats: seq<FormatRecord>) returns (found: set<nat>)
    ensures found == TruthyHeights(formats)
  {
    found := {};
    for i := 0 to |formats|
      invariant found == TruthyHeights(formats[..i])
    {
      if HasHeight(formats[i]) {
        found := found + {formats[i].height.value};
      }
      assert formats[..i + 1] == formats[..i] + [formats[i]];
    }
    assert formats[..|formats|] == formats;
  }

  /** The resolutions `obtener_info` prints: the truthy heights of the
    * records, each once, in strictly descending order. */
  method Summary(formats: seq<FormatRecord>) returns (heights: seq<nat>)
    ensures StrictlyDescending(heights)
    ensures forall h :: h in heights <==> exists f :: f in formats && HasHeight(f) && f.height.value == h
    ensures heights == Descending(TruthyHeights(formats))
  {
    var found := CollectHeights(formats);
    heights := Descending(found);
    DescendingSound(found);
  }
}
