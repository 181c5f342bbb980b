/**
 * The browser's `localStorage` as the dice game uses it: one key holding
 * the best score. Reading and writing may each throw (storage disabled,
 * quota exceeded), and the game swallows the exception: a failed read
 * yields 0 and a failed write does nothing.
 */
module BestScore {

  /** `BEST_KEY`. */
  const BestKey: string := "dice-best-score"

  class BestScoreStore {
    /** False when `localStorage.getItem` throws. */
    const readable: bool
    /** False when `localStorage.setItem` throws. */
    const writable: bool
    /** The stored items, by key. */
    var items: map<string, nat>

    constructor (readable: bool, writable: bool, items: map<string, nat>)
      ensures this.readable == readable && this.writable == writable && this.items == items
    {
      this.readable := readable;
      this.writable := writable;
      this.items := items;
    }

    /** What `loadBestScore` returns: the stored value, or 0 when the key is absent or access throws. */
    function Current(): nat
      reads this
    {
      if readable && BestKey in items then items[BestKey] else 0
    }

    /** `loadBestScore`. */
    method Load() returns (v: nat)
      ensures !readable ==> v == 0
      ensures readable && BestKey !in items ==> v == 0
      ensures readable && BestKey in items ==> v == items[BestKey]
    {
      if readable && BestKey in items {
        v := items[BestKey];
      } else {
        v := 0;
      }
    }

    /** `saveBestScore`: writes the key when writing works, and is silently lost otherwise. */
    method Save(score: nat)
      modifies this
      ensures writable ==> items == old(items)[BestKey := score]
      ensures writable && readable ==> Current() == score
      ensures !writable ==> items == old(items) && Current() == old(Current())
    {
      if writable {
        items := items[BestKey := score];
      }
    }
  }
}
