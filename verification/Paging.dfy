/** Answers that come in pages. */
module Paging {

  /** At most limit records, from offset on. */
  function Page<T>(records: seq<T>, limit: nat, offset: nat): seq<T> {
    if offset >= |records| then [] else if offset + limit <= |records| then records[offset..offset + limit] else records[offset..]
  }
}
