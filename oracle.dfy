/**
 * Fresh identifiers (`new_id` and `Uuid::new_v4` in `ferri-main/src/lib.rs` and the server,
 * and the random tokens of `gen_token`): values handed out in turn by a source the model
 * does not look into.
 */
module Oracle {
  class Ids {
    /** The `n`-th value the generator would produce. */
    const source: nat -> string
    var next: nat

    constructor (source: nat -> string)
      ensures this.source == source && next == 0
    {
      this.source := source;
      next := 0;
    }

    /** The next value; each call moves on by one. */
    method Fresh() returns (id: string)
      modifies this
      ensures id == source(old(next)) && next == old(next) + 1
    {
      id := source(next);
      next := next + 1;
    }
  }
}
