/**
 * The five diagnosed business zones and the insertion-ordered dictionaries
 * keyed by them (Python's `Dict[Zone, V]`, whose iteration order matters to
 * the tie-break fallback of the bottleneck selector).
 */
module Zones {

  /** A category of business weakness; `ZoneName` is its spelling as a dictionary key. */
  datatype Zone = Product | Traffic | Content | Sales | System

  function ZoneName(z: Zone): (name: string)
    ensures |name| > 0
  {
    match z
    case Product => "product"
    case Traffic => "traffic"
    case Content => "content"
    case Sales => "sales"
    case System => "system"
  }

  /** A Python dict keyed by zone: its entries in insertion order. */
  type ZoneDict<V> = seq<(Zone, V)>

  /** A well-formed dict: no key occurs twice. */
  predicate IsDict<V>(d: ZoneDict<V>) {
    forall i, j :: 0 <= i < j < |d| ==> d[i].0 != d[j].0
  }

  /** The keys in iteration order (`d.keys()`). */
  function Keys<V>(d: ZoneDict<V>): (ks: seq<Zone>)
    ensures |ks| == |d|
    ensures forall i :: 0 <= i < |d| ==> ks[i] == d[i].0
  {
    seq(|d|, i requires 0 <= i < |d| => d[i].0)
  }

  /** The values in iteration order (`d.values()`). */
  function Values<V>(d: ZoneDict<V>): (vs: seq<V>)
    ensures |vs| == |d|
    ensures forall i :: 0 <= i < |d| ==> vs[i] == d[i].1
  {
    seq(|d|, i requires 0 <= i < |d| => d[i].1)
  }

  predicate HasKey<V>(d: ZoneDict<V>, z: Zone) {
    z in Keys(d)
  }

  /** Position of the entry for `z`. */
  function IndexOf<V>(d: ZoneDict<V>, z: Zone): (i: nat)
    requires HasKey(d, z)
    ensures i < |d| && d[i].0 == z
    ensures forall j :: 0 <= j < i ==> d[j].0 != z
  {
    if d[0].0 == z then 0 else IndexOf(d[1..], z) + 1
  }

  /** `d[z]`. */
  function Get<V>(d: ZoneDict<V>, z: Zone): V
    requires HasKey(d, z)
  {
    d[IndexOf(d, z)].1
  }

  /** In a well-formed dict the entry at position `i` is the one `Get` finds. */
  lemma GetAt<V>(d: ZoneDict<V>, i: nat)
    requires IsDict(d) && i < |d|
    ensures HasKey(d, d[i].0) && IndexOf(d, d[i].0) == i && Get(d, d[i].0) == d[i].1
  {
    assert Keys(d)[i] == d[i].0;
  }
}
