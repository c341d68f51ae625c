/** An incremental decoder over any parser whose verdicts are final: bytes are
    fed in pieces, each call appends to a buffer and hands out at most one
    frame. The reference is the batch parse of the whole stream. */
module Streaming {
  import opened Basics

  datatype Parsed<+F> = NeedMore | Bad(error: Category) | Got(frame: F, size: nat)

  /** A parsed frame takes up part of the buffer, and a verdict does not change
      when more bytes arrive. */
  ghost predicate Final<F(!new)>(p: Bytes -> Parsed<F>) {
    && (forall b :: p(b).Got? ==> 0 < p(b).size <= |b|)
    && (forall b, more :: !p(b).NeedMore? ==> p(b + more) == p(b))
  }

  datatype Batch<+F> = Batch(frames: seq<F>, rest: Bytes, error: Option<Category>)

  /** Parsing everything at once: the reference for the decoder. */
  ghost function ParseAll<F(!new)>(p: Bytes -> Parsed<F>, b: Bytes): Batch<F>
    requires Final(p)
    decreases |b|
  {
    match p(b)
    case NeedMore => Batch([], b, None)
    case Bad(e) => Batch([], b, Some(e))
    case Got(f, n) =>
      var r := ParseAll(p, b[n..]);
      Batch([f] + r.frames, r.rest, r.error)
  }

  /** What one call reports and leaves in the buffer. */
  datatype Fed<+F> = Fed(frame: Option<F>, error: Option<Category>, buf: Bytes)

  ghost function FeedOnce<F(!new)>(p: Bytes -> Parsed<F>, buf: Bytes, data: Bytes): Fed<F>
    requires Final(p)
  {
    var b := buf + data;
    match p(b)
    case NeedMore => Fed(None, None, b)
    case Bad(e) => Fed(None, Some(e), b)
    case Got(f, n) => Fed(Some(f), None, b[n..])
  }

  datatype Run<+F> = Run(frames: seq<F>, buf: Bytes)

  function Handed<F>(r: Fed<F>): seq<F> {
    if r.frame.Some? then [r.frame.value] else []
  }

  /** A sequence of calls: the frames handed out and the final buffer. */
  ghost function FeedAll<F(!new)>(p: Bytes -> Parsed<F>, buf: Bytes, pieces: seq<Bytes>): Run<F>
    requires Final(p)
    decreases |pieces|
  {
    if pieces == [] then Run([], buf) else
      var r := FeedOnce(p, buf, pieces[0]);
      var rest := FeedAll(p, r.buf, pieces[1..]);
      Run(Handed(r) + rest.frames, rest.buf)
  }

  /** Frames followed by a batch parse. */
  function Before<F>(fs: seq<F>, r: Batch<F>): Batch<F> {
    Batch(fs + r.frames, r.rest, r.error)
  }

  /** One call moves at most one frame out of the batch parse. */
  lemma FeedOnceBatch<F(!new)>(p: Bytes -> Parsed<F>, buf: Bytes, data: Bytes, more: Bytes)
    requires Final(p)
    ensures var r := FeedOnce(p, buf, data);
      ParseAll(p, buf + data + more) == Before(Handed(r), ParseAll(p, r.buf + more))
  {
    var b := buf + data;
    if p(b).Got? {
      assert p(b + more) == p(b);
      assert (b + more)[p(b).size..] == b[p(b).size..] + more;
    } else {
      var all := ParseAll(p, b + more);
      assert [] + all.frames == all.frames;
    }
  }

  /** For every split of the stream into pieces: the frames handed out so far,
      followed by the batch parse of what is buffered, is the batch parse of all
      the bytes fed. */
  lemma {:induction false} FeedRefinesBatch<F(!new)>(p: Bytes -> Parsed<F>, buf: Bytes, pieces: seq<Bytes>)
    requires Final(p)
    ensures var run := FeedAll(p, buf, pieces);
      ParseAll(p, buf + Concat(pieces)) == Before(run.frames, ParseAll(p, run.buf))
    decreases |pieces|
  {
    if pieces == [] {
      assert buf + Concat(pieces) == buf;
      assert [] + ParseAll(p, buf).frames == ParseAll(p, buf).frames;
    } else {
      var r := FeedOnce(p, buf, pieces[0]);
      var more := Concat(pieces[1..]);
      assert buf + Concat(pieces) == buf + pieces[0] + more;
      FeedOnceBatch(p, buf, pieces[0], more);
      FeedRefinesBatch(p, r.buf, pieces[1..]);
      BeforeBefore(Handed(r), FeedAll(p, r.buf, pieces[1..]).frames, ParseAll(p, FeedAll(p, buf, pieces).buf));
    }
  }

  lemma BeforeBefore<F>(a: seq<F>, b: seq<F>, r: Batch<F>)
    ensures Before(a, Before(b, r)) == Before(a + b, r)
  {
  }

  /** The same parse error is found behind whatever is buffered after it. */
  lemma ErrorStays<F(!new)>(p: Bytes -> Parsed<F>, buf: Bytes, more: Bytes, error: Option<Category>)
    requires Final(p) && error.Some? && FeedOnce(p, buf, []) == Fed(None, error, buf)
    ensures FeedOnce(p, buf, more) == Fed(None, error, buf + more)
    ensures FeedOnce(p, buf + more, []) == Fed(None, error, buf + more)
  {
    assert buf + [] == buf && (buf + more) + [] == buf + more;
  }

  /** An error, once reported, is reported by every later call, whatever is fed
      in whatever pieces, and no frame comes out any more. */
  lemma {:induction false} ErrorPersists<F(!new)>(p: Bytes -> Parsed<F>, buf: Bytes, data: Bytes, later: seq<Bytes>,
                                                  last: Bytes)
    requires Final(p) && FeedOnce(p, buf, data).error.Some?
    ensures var r := FeedOnce(p, buf, data);
      && FeedAll(p, r.buf, later) == Run([], r.buf + Concat(later))
      && FeedOnce(p, FeedAll(p, r.buf, later).buf, last) == Fed(None, r.error, r.buf + Concat(later) + last)
  {
    var r := FeedOnce(p, buf, data);
    assert r.buf + [] == r.buf;
    ErrorThroughout(p, r.buf, r.error, later);
    ErrorStays(p, r.buf + Concat(later), last, r.error);
  }

  lemma {:induction false} ErrorThroughout<F(!new)>(p: Bytes -> Parsed<F>, buf: Bytes, error: Option<Category>,
                                                    later: seq<Bytes>)
    requires Final(p) && error.Some? && FeedOnce(p, buf, []) == Fed(None, error, buf)
    ensures FeedAll(p, buf, later) == Run([], buf + Concat(later))
    ensures FeedOnce(p, buf + Concat(later), []) == Fed(None, error, buf + Concat(later))
    decreases |later|
  {
    if later == [] {
      assert buf + Concat(later) == buf;
    } else {
      ErrorStays(p, buf, later[0], error);
      ErrorThroughout(p, buf + later[0], error, later[1..]);
      assert buf + later[0] + Concat(later[1..]) == buf + Concat(later);
    }
  }

  function Empties(k: nat): seq<Bytes> { seq(k, i => []) }

  /** Empty calls drain the buffer one frame at a time. */
  lemma {:induction false} DrainBatch<F(!new)>(p: Bytes -> Parsed<F>, buf: Bytes, k: nat)
    requires Final(p) && |ParseAll(p, buf).frames| <= k
    ensures FeedAll(p, buf, Empties(k)) == Run(ParseAll(p, buf).frames, ParseAll(p, buf).rest)
    decreases k
  {
    if k == 0 {
      assert Empties(0) == [];
    } else {
      var r := FeedOnce(p, buf, []);
      assert Empties(k)[1..] == Empties(k - 1) && Empties(k)[0] == [];
      FeedOnceBatch(p, buf, [], []);
      assert buf + [] + [] == buf && r.buf + [] == r.buf;
      DrainBatch(p, r.buf, k - 1);
    }
  }

  lemma {:induction false} FeedAllAppend<F(!new)>(p: Bytes -> Parsed<F>, buf: Bytes, a: seq<Bytes>, b: seq<Bytes>)
    requires Final(p)
    ensures var first := FeedAll(p, buf, a);
      var second := FeedAll(p, first.buf, b);
      FeedAll(p, buf, a + b) == Run(first.frames + second.frames, second.buf)
    decreases |a|
  {
    if a == [] {
      assert a + b == b;
      assert [] + FeedAll(p, buf, b).frames == FeedAll(p, buf, b).frames;
    } else {
      var r := FeedOnce(p, buf, a[0]);
      assert (a + b)[1..] == a[1..] + b && (a + b)[0] == a[0];
      FeedAllAppend(p, r.buf, a[1..], b);
      var rest := FeedAll(p, r.buf, a[1..]);
      var second := FeedAll(p, rest.buf, b);
      assert Handed(r) + (rest.frames + second.frames) == (Handed(r) + rest.frames) + second.frames;
    }
  }

  /** Whatever the pieces, feeding then draining yields the batch parse. */
  lemma FeedThenDrain<F(!new)>(p: Bytes -> Parsed<F>, pieces: seq<Bytes>, k: nat)
    requires Final(p) && |ParseAll(p, Concat(pieces)).frames| <= k
    ensures var all := ParseAll(p, Concat(pieces));
      FeedAll(p, [], pieces + Empties(k)) == Run(all.frames, all.rest)
  {
    assert [] + Concat(pieces) == Concat(pieces);
    FeedRefinesBatch(p, [], pieces);
    DrainBatch(p, FeedAll(p, [], pieces).buf, k);
    FeedAllAppend(p, [], pieces, Empties(k));
  }

  // ---- One message in transit ---------------------------------------------

  /** `w` writes messages that `p` reads back, and reads nothing less. */
  ghost predicate Codec<M(!new)>(p: Bytes -> Parsed<M>, w: M -> Bytes, fits: M -> bool) {
    && Final(p)
    && (forall m :: fits(m) ==> w(m) != [] && p(w(m)) == Got(m, |w(m)|))
    && (forall m, k :: fits(m) && 0 <= k < |w(m)| ==> p(w(m)[..k]) == NeedMore)
  }

  /** The receiver's buffer and the channel hold message `m` between them, and
      the receiver has not got all of it. */
  ghost predicate InTransit<M(!new)>(w: M -> Bytes, m: M, buf: Bytes, channel: Bytes) {
    buf + channel == w(m) && |buf| < |w(m)|
  }

  /** Receiving part of a message hands out nothing; receiving its last bytes
      hands out the message and leaves nothing behind. */
  lemma ReceivePart<M(!new)>(p: Bytes -> Parsed<M>, w: M -> Bytes, fits: M -> bool,
                             m: M, buf: Bytes, channel: Bytes, k: nat)
    requires Codec(p, w, fits) && fits(m) && InTransit(w, m, buf, channel) && k <= |channel|
    ensures var piece := channel[..k];
      if k < |channel| then
        FeedOnce(p, buf, piece) == Fed(None, None, buf + piece) && InTransit(w, m, buf + piece, channel[k..])
      else
        FeedOnce(p, buf, piece) == Fed(Some(m), None, [])
  {
    var b := buf + channel[..k];
    assert w(m)[..|buf| + k] == b;
    if k < |channel| {
      assert b + channel[k..] == w(m);
    } else {
      assert b == w(m);
      assert b[|w(m)|..] == [];
    }
  }
}
