/**
 * The channel names of a sentinel's event emitter: one channel per command
 * document for its result, one per status document for its value, and one
 * wildcard channel that hears every status document.
 */
module Channels {
  import opened ObjectIds

  const QUERIES_PREFIX: string := "queries_"
  const STATUS_PREFIX: string := "status_"
  const WILDCARD: string := "new_or_updated"

  /** `"queries_" + _id`: where the result of one command is announced. */
  function QueriesChannel(id: ObjectId): (ch: string)
    ensures |ch| == |QUERIES_PREFIX| + ID_DIGITS && ch[..|QUERIES_PREFIX|] == QUERIES_PREFIX
  {
    QUERIES_PREFIX + IdText(id)
  }

  /** `"status_" + _id`: where the value of one status document is announced. */
  function StatusChannel(id: ObjectId): (ch: string)
    ensures |ch| == |STATUS_PREFIX| + ID_DIGITS && ch[..|STATUS_PREFIX|] == STATUS_PREFIX
  {
    STATUS_PREFIX + IdText(id)
  }

  /**
   * The three kinds of channel never share a name, and within a kind the
   * channel determines the document: a result is heard only by the listeners of
   * its own command, a status value only by the subscribers of its own document.
   */
  lemma ChannelsDistinct(a: ObjectId, b: ObjectId)
    ensures QueriesChannel(a) == QueriesChannel(b) <==> a == b
    ensures StatusChannel(a) == StatusChannel(b) <==> a == b
    ensures QueriesChannel(a) != StatusChannel(b)
    ensures QueriesChannel(a) != WILDCARD && StatusChannel(a) != WILDCARD
  {
    if QueriesChannel(a) == QueriesChannel(b) {
      assert IdText(a) == QueriesChannel(a)[|QUERIES_PREFIX|..];
      assert IdText(b) == QueriesChannel(b)[|QUERIES_PREFIX|..];
      IdTextInjective(a, b);
    }
    if StatusChannel(a) == StatusChannel(b) {
      assert IdText(a) == StatusChannel(a)[|STATUS_PREFIX|..];
      assert IdText(b) == StatusChannel(b)[|STATUS_PREFIX|..];
      IdTextInjective(a, b);
    }
    assert QueriesChannel(a)[0] == 'q';
    assert StatusChannel(a)[0] == 's' && StatusChannel(b)[0] == 's';
    assert WILDCARD[0] == 'n';
  }
}
