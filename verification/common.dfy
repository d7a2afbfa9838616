/** Values shared by the stores: optional values, settled promises, and the
    JSON envelopes the stores keep in `localStorage`. */
module Common {

  datatype Option<T> = None | Some(value: T)

  /** What an awaited call rejected with: an `Error` carrying its message, or
      some other thrown value. */
  datatype Failure = ErrorThrown(message: string) | OtherThrown

  /** How an awaited call that the model does not see into settled. */
  datatype Outcome<T> = Ok(payload: T) | Err(failure: Failure)

  /** The message the stores keep for a failure:
      `error instanceof Error ? error : new Error(fallback)`. */
  function ErrorMessage(f: Failure, fallback: string): (m: string)
    ensures f.ErrorThrown? ==> m == f.message
    ensures f.OtherThrown? ==> m == fallback
  {
    match f
    case ErrorThrown(msg) => msg
    case OtherThrown => fallback
  }

  /** Proof step, not a model of anything in the stores: two announcements
      appended one at a time equal the two appended together. The store
      methods call it to match their log of announcements with the effect
      functions that specify them. */
  lemma PushTwice<T>(h: seq<T>, a: T, b: T)
    ensures h + [a] + [b] == h + [a, b]
  {
  }

  /** Proof step, as `PushTwice`, for three announcements. */
  lemma PushThrice<T>(h: seq<T>, a: T, b: T, c: T)
    ensures h + [a] + [b] + [c] == h + [a, b, c]
  {
  }

  /** A value held in `localStorage` under some key, as `JSON.parse` sees it.
      `Malformed` is text that `JSON.parse` rejects (or that parses to `null`,
      so that reading `.data` throws). In an `Envelope`, `data` is `None` when
      the field is missing or falsy, and `timestamp` is `None` when missing. */
  datatype Entry<T> =
    | Malformed
    | Envelope(data: Option<T>, timestamp: Option<int>)

  /** What a successful cache read hands back: `{ data, timestamp }`. */
  datatype Cached<T> = Cached(data: T, timestamp: int)

  /** JavaScript truthiness of a stored timestamp: present and not zero. */
  predicate TruthyTimestamp(t: Option<int>)
  {
    t.Some? && t.value != 0
  }

  /** The entry at `key` passes the freshness test of the stores: truthy
      `data`, truthy `timestamp` and `now - timestamp < expiry`. */
  predicate IsFresh<T>(ls: map<string, Entry<T>>, key: string, now: int, expiry: int)
  {
    && key in ls
    && ls[key].Envelope?
    && ls[key].data.Some?
    && TruthyTimestamp(ls[key].timestamp)
    && now - ls[key].timestamp.value < expiry
  }

  /** `getFromLocalStorage`: the cached envelope when it is fresh, otherwise
      nothing. A missing key, a malformed entry or a stale one all read as a
      miss; nothing is ever thrown. */
  function GetFromLocalStorage<T>(ls: map<string, Entry<T>>, key: string, now: int, expiry: int): (r: Option<Cached<T>>)
    ensures r.Some? <==> IsFresh(ls, key, now, expiry)
    ensures r.Some? ==> r.value.data == ls[key].data.value && r.value.timestamp == ls[key].timestamp.value
  {
    if key in ls then
      match ls[key]
      case Malformed => None
      case Envelope(data, timestamp) =>
        if data.Some? && TruthyTimestamp(timestamp) && now - timestamp.value < expiry
        then Some(Cached(data.value, timestamp.value))
        else None
    else None
  }

  /** The envelope `JSON.stringify({ data, timestamp })` leaves behind. */
  function StoredEnvelope<T>(data: T, timestamp: int): Entry<T>
  {
    Envelope(Some(data), Some(timestamp))
  }

  /** Time-to-live: an envelope written at `t0` (non-zero) is read back, with
      the same data and timestamp, exactly while `now < t0 + expiry`; every
      other key reads as before the write. */
  lemma {:induction false} ReadAfterWrite<T>(ls: map<string, Entry<T>>, key: string, data: T, t0: int, now: int, expiry: int, other: string)
    requires t0 != 0
    ensures var ls' := ls[key := StoredEnvelope(data, t0)];
            && (now < t0 + expiry ==> GetFromLocalStorage(ls', key, now, expiry) == Some(Cached(data, t0)))
            && (now >= t0 + expiry ==> GetFromLocalStorage(ls', key, now, expiry) == None)
            && (other != key ==> GetFromLocalStorage(ls', other, now, expiry) == GetFromLocalStorage(ls, other, now, expiry))
  {
    var ls' := ls[key := StoredEnvelope(data, t0)];
    assert ls'[key] == Envelope(Some(data), Some(t0));
    if other != key {
      assert (other in ls') == (other in ls);
      assert other in ls ==> ls'[other] == ls[other];
    }
  }

  /** A timestamp of `0` is falsy, so an envelope written at time 0 is never
      read back, however fresh. */
  lemma ZeroTimestampNeverHits<T>(ls: map<string, Entry<T>>, key: string, data: T, now: int, expiry: int)
    ensures GetFromLocalStorage(ls[key := StoredEnvelope(data, 0)], key, now, expiry) == None
  {
  }

  /** Removing a key makes every later read of it a miss and leaves every
      other key as it was. */
  lemma {:induction false} ReadAfterRemove<T>(ls: map<string, Entry<T>>, key: string, other: string, now: int, expiry: int)
    ensures GetFromLocalStorage(ls - {key}, key, now, expiry) == None
    ensures other != key ==> GetFromLocalStorage(ls - {key}, other, now, expiry) == GetFromLocalStorage(ls, other, now, expiry)
  {
    assert key !in ls - {key};
    if other != key {
      assert (other in ls - {key}) == (other in ls);
      assert other in ls ==> (ls - {key})[other] == ls[other];
    }
  }
}
