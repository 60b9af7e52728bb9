/** A scripted stand-in for the memcache client: each Set call takes the next
    outcome from a script, and every call is recorded. */
module Memcache {
  import opened Base

  datatype Item = Item(key: string, value: seq<byte>)

  /** The script after one Set call has consumed its outcome. */
  function Rest(script: seq<bool>): seq<bool>
  {
    if script == [] then [] else script[1..]
  }

  /** The script after `n` Set calls. */
  function After(script: seq<bool>, n: nat): (r: seq<bool>)
    ensures n <= |script| ==> r == script[n..]
    ensures n >= |script| ==> r == []
  {
    if n <= |script| then script[n..] else []
  }

  /** `n` copies of the same item. */
  function Repeat(item: Item, n: nat): (r: seq<Item>)
    ensures |r| == n && forall i :: 0 <= i < n ==> r[i] == item
  {
    seq(n, _ => item)
  }

  class Client {
    /** Outcomes of the coming Set calls, true for success; once the script
        is used up every call fails, as an unreachable server would. */
    var script: seq<bool>
    /** Every Set call received, in order. */
    var sets: seq<Item>
    /** What the server stores. */
    var items: map<string, seq<byte>>

    constructor (script: seq<bool>)
      ensures this.script == script && sets == [] && items == map[]
    {
      this.script := script;
      sets := [];
      items := map[];
    }

    /** memcache Set: on success the key now holds the value (last write wins). */
    method Set(item: Item) returns (ok: bool)
      modifies this
      ensures ok == (old(script) != [] && old(script)[0])
      ensures script == Rest(old(script))
      ensures sets == old(sets) + [item]
      ensures items == if ok then old(items)[item.key := item.value] else old(items)
    {
      ok := script != [] && script[0];
      script := Rest(script);
      sets := sets + [item];
      if ok {
        items := items[item.key := item.value];
      }
    }
  }
}
