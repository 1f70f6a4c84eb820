/** The batching sender (app/realtime_sender.py): two FIFO buffers filled by producers and
    drained by the delivery loop, one environmental record and at most one accelerometer
    batch per iteration. Each lock-guarded block is one atomic step of this sequential model. */
module RealtimeSender {
  import opened Records

  // ---------------------------------------------------------------- endpoint

  /** `s.rstrip("/")`: s without its trailing run of slashes. */
  function RStripSlash(s: string): (r: string)
    ensures r <= s
    ensures r == [] || r[|r| - 1] != '/'
    ensures forall i :: |r| <= i < |s| ==> s[i] == '/'
  {
    if s != [] && s[|s| - 1] == '/' then RStripSlash(s[..|s| - 1]) else s
  }

  /** Stripping is idempotent: a stripped URL is left alone. */
  lemma RStripIdempotent(s: string)
    ensures RStripSlash(RStripSlash(s)) == RStripSlash(s)
  {
  }

  const IngestPath: string := "/ingest"

  /** The URL every request is posted to. */
  function IngestUrl(serverUrl: string): (u: string)
    ensures var base := |u| - |IngestPath|;
      && 0 <= base <= |serverUrl|
      && u[base..] == IngestPath
      && u[..base] == serverUrl[..base]
      && (base == 0 || u[base - 1] != '/')
      && (forall i :: base <= i < |serverUrl| ==> serverUrl[i] == '/')
  {
    RStripSlash(serverUrl) + IngestPath
  }

  /** However many slashes end the configured URL, exactly one separates it from "ingest". */
  lemma {:induction false} IngestUrlIgnoresTrailingSlashes(s: string, k: nat)
    ensures IngestUrl(s + SlashRun(k)) == IngestUrl(s)
  {
    if k == 0 {
      assert s + SlashRun(k) == s;
    } else {
      var t := s + SlashRun(k);
      assert t == (s + SlashRun(k - 1)) + "/";
      assert t[..|t| - 1] == s + SlashRun(k - 1);
      assert RStripSlash(t) == RStripSlash(s + SlashRun(k - 1));
      IngestUrlIgnoresTrailingSlashes(s, k - 1);
    }
  }

  function SlashRun(k: nat): (r: string)
    ensures |r| == k
  {
    if k == 0 then "" else SlashRun(k - 1) + "/"
  }

  // ---------------------------------------------------------------- requests

  /** The JSON bodies the sender posts; the constructor stands for the "type" field ("rs485" or
      "adxl_batch"), and `ts` is the UTC ISO-8601 time with its trailing "Z". */
  datatype Body =
    | Rs485Body(deviceId: string, ts: string, sample: Reading)
    | AdxlBatchBody(deviceId: string, ts: string, fsHz: int, chunkStartUs: int, samples: seq<Triple>)

  /** One POST: URL, the X-API-Key header, the request timeout and the body. */
  datatype Request = Request(url: string, apiKey: string, timeout: real, body: Body)

  /** Declared sample rate of every accelerometer batch. */
  const FsHz: int := 500

  /** The accelerometer samples of the batch requests, in order. */
  function BatchSamples(posts: seq<Request>): seq<Triple> {
    if posts == [] then []
    else (if posts[0].body.AdxlBatchBody? then posts[0].body.samples else []) + BatchSamples(posts[1..])
  }

  /** The environmental records of the rs485 requests, in order. */
  function Rs485Samples(posts: seq<Request>): seq<Reading> {
    if posts == [] then []
    else (if posts[0].body.Rs485Body? then [posts[0].body.sample] else []) + Rs485Samples(posts[1..])
  }

  lemma {:induction false} BatchSamplesConcat(a: seq<Request>, b: seq<Request>)
    ensures BatchSamples(a + b) == BatchSamples(a) + BatchSamples(b)
  {
    if a == [] {
      assert a + b == b;
    } else {
      var h := (if a[0].body.AdxlBatchBody? then a[0].body.samples else []);
      assert (a + b)[0] == a[0];
      assert (a + b)[1..] == a[1..] + b;
      calc {
        BatchSamples(a + b);
        h + BatchSamples(a[1..] + b);
        { BatchSamplesConcat(a[1..], b); }
        h + (BatchSamples(a[1..]) + BatchSamples(b));
        (h + BatchSamples(a[1..])) + BatchSamples(b);
        BatchSamples(a) + BatchSamples(b);
      }
    }
  }

  lemma {:induction false} Rs485SamplesConcat(a: seq<Request>, b: seq<Request>)
    ensures Rs485Samples(a + b) == Rs485Samples(a) + Rs485Samples(b)
  {
    if a == [] {
      assert a + b == b;
    } else {
      var h := (if a[0].body.Rs485Body? then [a[0].body.sample] else []);
      assert (a + b)[0] == a[0];
      assert (a + b)[1..] == a[1..] + b;
      calc {
        Rs485Samples(a + b);
        h + Rs485Samples(a[1..] + b);
        { Rs485SamplesConcat(a[1..], b); }
        h + (Rs485Samples(a[1..]) + Rs485Samples(b));
        (h + Rs485Samples(a[1..])) + Rs485Samples(b);
        Rs485Samples(a) + Rs485Samples(b);
      }
    }
  }

  // ---------------------------------------------------------------- flush rule

  /** The flush rule: a full batch is buffered, or the flush interval has passed and
      something is buffered. */
  predicate FlushDue(len: nat, batchSize: int, elapsed: real, interval: real)
    ensures len >= batchSize ==> FlushDue(len, batchSize, elapsed, interval)
    ensures len == 0 && batchSize > 0 ==> !FlushDue(len, batchSize, elapsed, interval)
  {
    len >= batchSize || (elapsed >= interval && len > 0)
  }

  /** The length of Python's `buf[:take]` (and of what `del buf[:take]` removes) for a
      list of length len, a negative take counting from the end. */
  function SliceLength(len: nat, take: int): (n: nat)
    ensures n <= len
    ensures 0 <= take <= len ==> n == take
    ensures take > len ==> n == len
    ensures take < 0 ==> n == if len + take > 0 then len + take else 0
  {
    if take >= 0 then (if take <= len then take else len)
    else if len + take > 0 then len + take else 0
  }

  /** How many samples one flush takes: `min(batch_size, len(buf))`. */
  function ChunkSize(len: nat, batchSize: int): (n: nat)
    ensures n <= len
    ensures batchSize >= 0 ==> n == Min(batchSize, len)
    ensures batchSize < 0 ==> n == if len + batchSize > 0 then len + batchSize else 0
  {
    SliceLength(len, Min(batchSize, len))
  }

  /** With a positive batch size, an empty buffer is never flushed, and a flush takes the
      oldest min(batch_size, len) samples: at least one and at most a batch. */
  lemma FlushBounds(len: nat, batchSize: int, elapsed: real, interval: real)
    requires batchSize >= 1
    ensures FlushDue(len, batchSize, elapsed, interval) ==> len > 0
    ensures FlushDue(len, batchSize, elapsed, interval) ==>
      1 <= ChunkSize(len, batchSize) <= batchSize && ChunkSize(len, batchSize) == Min(batchSize, len)
  {
  }

  /** A due flush yields an empty chunk only for a batch size below one. */
  lemma EmptyChunkNeedsBadBatchSize(len: nat, batchSize: int, elapsed: real, interval: real)
    requires FlushDue(len, batchSize, elapsed, interval) && ChunkSize(len, batchSize) == 0
    ensures batchSize <= 0
  {
  }

  /** Exactly batch_size buffered samples flush as one full batch with no time elapsed;
      a single sample waits while less than the interval has passed, and flushes alone once
      it has. */
  lemma FlushTriggers(batchSize: int, interval: real, elapsed: real)
    requires batchSize >= 1 && interval > 0.0
    ensures FlushDue(batchSize, batchSize, 0.0, interval) && ChunkSize(batchSize, batchSize) == batchSize
    ensures batchSize > 1 && elapsed < interval ==> !FlushDue(1, batchSize, elapsed, interval)
    ensures elapsed >= interval ==> FlushDue(1, batchSize, elapsed, interval) && ChunkSize(1, batchSize) == 1
  {
  }

  // ---------------------------------------------------------------- the sender

  class Sender {
    const serverUrl: string
    const apiKey: string
    const deviceId: string
    const timeout: real
    const batchSize: int
    const flushInterval: real

    /** Cleared by Stop; the delivery loop runs while it is set. */
    var running: bool
    /** Cleared when the delivery loop dies of an exception (an empty chunk indexed). */
    var alive: bool

    var rs485Buf: seq<Reading>
    var adxlBuf: seq<Triple>
    var lastFlush: real

    /** Everything ever pushed, and everything ever taken out of the buffers, in order. */
    ghost var pushedRs485: seq<Reading>
    ghost var takenRs485: seq<Reading>
    ghost var pushedAdxl: seq<Triple>
    ghost var flushedAdxl: seq<Triple>

    /** The buffers are FIFO: what was taken out, followed by what is left, is what was pushed. */
    ghost predicate Valid()
      reads this
    {
      && takenRs485 + rs485Buf == pushedRs485
      && flushedAdxl + adxlBuf == pushedAdxl
      && (serverUrl == [] || serverUrl[|serverUrl| - 1] != '/')
    }

    /** `now` is the clock reading taken for the first flush interval. */
    constructor (serverUrl: string, apiKey: string, deviceId: string, timeout: real,
                 batchSize: int, flushInterval: real, now: real)
      ensures Valid()
      ensures this.serverUrl == RStripSlash(serverUrl)
      ensures this.serverUrl + IngestPath == IngestUrl(serverUrl)
      ensures this.apiKey == apiKey && this.deviceId == deviceId && this.timeout == timeout
      ensures this.batchSize == batchSize && this.flushInterval == flushInterval
      ensures running && alive && rs485Buf == [] && adxlBuf == [] && lastFlush == now
      ensures pushedRs485 == [] && takenRs485 == [] && pushedAdxl == [] && flushedAdxl == []
    {
      this.serverUrl := RStripSlash(serverUrl);
      this.apiKey := apiKey;
      this.deviceId := deviceId;
      this.timeout := timeout;
      this.batchSize := batchSize;
      this.flushInterval := flushInterval;
      running, alive := true, true;
      rs485Buf, adxlBuf, lastFlush := [], [], now;
      pushedRs485, takenRs485, pushedAdxl, flushedAdxl := [], [], [], [];
    }

    method Stop()
      modifies this
      ensures !running
      ensures alive == old(alive) && rs485Buf == old(rs485Buf) && adxlBuf == old(adxlBuf)
      ensures lastFlush == old(lastFlush)
      ensures pushedRs485 == old(pushedRs485) && takenRs485 == old(takenRs485)
      ensures pushedAdxl == old(pushedAdxl) && flushedAdxl == old(flushedAdxl)
    {
      running := false;
    }

    /** push_rs485: append one environmental record; nothing else changes. */
    method PushRs485(sample: Reading)
      requires Valid()
      modifies this
      ensures Valid()
      ensures rs485Buf == old(rs485Buf) + [sample] && pushedRs485 == old(pushedRs485) + [sample]
      ensures adxlBuf == old(adxlBuf) && lastFlush == old(lastFlush)
      ensures running == old(running) && alive == old(alive)
      ensures takenRs485 == old(takenRs485)
      ensures pushedAdxl == old(pushedAdxl) && flushedAdxl == old(flushedAdxl)
    {
      rs485Buf := rs485Buf + [sample];
      pushedRs485 := pushedRs485 + [sample];
    }

    /** push_adxl_sample: append one triple; nothing else changes. */
    method PushAdxlSample(z1: int, z2: int, z3: int)
      requires Valid()
      modifies this
      ensures Valid()
      ensures adxlBuf == old(adxlBuf) + [Triple(z1, z2, z3)]
      ensures pushedAdxl == old(pushedAdxl) + [Triple(z1, z2, z3)]
      ensures rs485Buf == old(rs485Buf) && lastFlush == old(lastFlush)
      ensures running == old(running) && alive == old(alive)
      ensures pushedRs485 == old(pushedRs485) && takenRs485 == old(takenRs485)
      ensures flushedAdxl == old(flushedAdxl)
    {
      adxlBuf := adxlBuf + [Triple(z1, z2, z3)];
      pushedAdxl := pushedAdxl + [Triple(z1, z2, z3)];
    }

    /** The rs485 post of an iteration whose buffer is `buf`: one body for its oldest record. */
    function Rs485Posts(ts: string, buf: seq<Reading>): (posts: seq<Request>)
      ensures |posts| <= 1 && (posts == [] <==> buf == [])
      ensures posts != [] ==> posts[0].url == serverUrl + IngestPath && posts[0].body.Rs485Body?
    {
      if buf == [] then [] else [Request(serverUrl + IngestPath, apiKey, timeout, Rs485Body(deviceId, ts, buf[0]))]
    }

    /** The batch post of an iteration: one body for the oldest n samples of `buf` when the
        flush is due and the chunk is not empty. */
    function BatchPosts(ts: string, buf: seq<Triple>, due: bool, n: nat): (posts: seq<Request>)
      requires n <= |buf|
      ensures |posts| <= 1 && (posts == [] <==> !due || n == 0)
      ensures posts != [] ==> posts[0].url == serverUrl + IngestPath && posts[0].body.AdxlBatchBody?
    {
      if due && n > 0 then [Request(serverUrl + IngestPath, apiKey, timeout,
                                    AdxlBatchBody(deviceId, ts, FsHz, buf[0].z1, buf[..n]))]
      else []
    }

    /** Step 1 of the delivery loop: pop the oldest environmental record, if any, and post it. */
    method SendRs485(ts: string) returns (posts: seq<Request>)
      requires Valid()
      modifies this
      ensures Valid()
      ensures posts == Rs485Posts(ts, old(rs485Buf))
      ensures old(rs485Buf) == [] ==> rs485Buf == [] && takenRs485 == old(takenRs485) && posts == []
      ensures old(rs485Buf) != [] ==>
        && rs485Buf == old(rs485Buf)[1..]
        && takenRs485 == old(takenRs485) + [old(rs485Buf)[0]]
        && posts == [Request(serverUrl + IngestPath, apiKey, timeout, Rs485Body(deviceId, ts, old(rs485Buf)[0]))]
      ensures adxlBuf == old(adxlBuf) && lastFlush == old(lastFlush) && flushedAdxl == old(flushedAdxl)
      ensures running == old(running) && alive == old(alive)
      ensures pushedRs485 == old(pushedRs485) && pushedAdxl == old(pushedAdxl)
    {
      posts := [];
      if rs485Buf != [] {
        var item := rs485Buf[0];
        rs485Buf := rs485Buf[1..];
        takenRs485 := takenRs485 + [item];
        posts := [Request(serverUrl + IngestPath, apiKey, timeout, Rs485Body(deviceId, ts, item))];
      }
    }

    /** Step 2 of the delivery loop: apply the flush rule at clock reading `now` and post
        the oldest ChunkSize samples as one batch. */
    method FlushAdxl(now: real, ts: string) returns (posts: seq<Request>)
      requires Valid()
      modifies this
      ensures Valid()
      ensures var due := FlushDue(|old(adxlBuf)|, batchSize, now - old(lastFlush), flushInterval);
              var n := ChunkSize(|old(adxlBuf)|, batchSize);
              && (!due ==> adxlBuf == old(adxlBuf) && lastFlush == old(lastFlush)
                           && flushedAdxl == old(flushedAdxl) && alive == old(alive) && posts == [])
              && (due ==> adxlBuf == old(adxlBuf)[n..] && lastFlush == now
                          && flushedAdxl == old(flushedAdxl) + old(adxlBuf)[..n])
              && (due && n > 0 ==>
                    && alive == old(alive)
                    && posts == [Request(serverUrl + IngestPath, apiKey, timeout,
                                         AdxlBatchBody(deviceId, ts, FsHz, old(adxlBuf)[0].z1, old(adxlBuf)[..n]))])
              && (due && n == 0 ==> !alive && posts == [])
              && posts == BatchPosts(ts, old(adxlBuf), due, n)
      ensures rs485Buf == old(rs485Buf) && takenRs485 == old(takenRs485) && running == old(running)
      ensures pushedRs485 == old(pushedRs485) && pushedAdxl == old(pushedAdxl)
    {
      posts := [];
      if FlushDue(|adxlBuf|, batchSize, now - lastFlush, flushInterval) {
        var n := ChunkSize(|adxlBuf|, batchSize);
        var chunk := adxlBuf[..n];
        assert adxlBuf == chunk + adxlBuf[n..];
        adxlBuf := adxlBuf[n..];
        flushedAdxl := flushedAdxl + chunk;
        lastFlush := now;
        if chunk == [] {
          // `chunk[0][0]` raises IndexError outside every handler: the delivery loop ends
          alive := false;
          return;
        }
        posts := [Request(serverUrl + IngestPath, apiKey, timeout,
                          AdxlBatchBody(deviceId, ts, FsHz, chunk[0].z1, chunk))];
      }
    }

    /** One iteration of the delivery loop at clock reading `now` (seconds), with `ts` the
        UTC timestamp put into the bodies. Returns the requests it posts, in order; whether a
        post succeeds has no effect on the sender's state, so it is not an input. */
    method Step(now: real, ts: string) returns (posts: seq<Request>)
      requires Valid()
      modifies this
      ensures Valid()
      ensures rs485Buf == (if old(rs485Buf) == [] then [] else old(rs485Buf)[1..])
      ensures var n := ChunkSize(|old(adxlBuf)|, batchSize);
              if FlushDue(|old(adxlBuf)|, batchSize, now - old(lastFlush), flushInterval)
              then adxlBuf == old(adxlBuf)[n..] && lastFlush == now && (alive <==> old(alive) && n > 0)
              else adxlBuf == old(adxlBuf) && lastFlush == old(lastFlush) && alive == old(alive)
      ensures posts == Rs485Posts(ts, old(rs485Buf))
                     + BatchPosts(ts, old(adxlBuf), FlushDue(|old(adxlBuf)|, batchSize, now - old(lastFlush), flushInterval),
                                  ChunkSize(|old(adxlBuf)|, batchSize))
      ensures |posts| <= 2
      ensures takenRs485 == old(takenRs485) + Rs485Samples(posts)
      ensures flushedAdxl == old(flushedAdxl) + BatchSamples(posts)
      ensures forall i :: 0 <= i < |posts| ==> posts[i].url == serverUrl + IngestPath
      ensures forall i :: 0 <= i < |posts| && posts[i].body.AdxlBatchBody? ==>
        var b := posts[i].body;
        1 <= |b.samples| && b.fsHz == FsHz && b.chunkStartUs == b.samples[0].z1
      ensures running == old(running)
      ensures pushedRs485 == old(pushedRs485) && pushedAdxl == old(pushedAdxl)
    {
      var first := SendRs485(ts);
      var second := FlushAdxl(now, ts);
      posts := first + second;
      Rs485SamplesConcat(first, second);
      BatchSamplesConcat(first, second);
    }

    /** The delivery loop over successive clock readings, while the sender runs.
        The accelerometer samples posted, in order, are exactly those taken from the buffer,
        so they continue the sequence of earlier batches as a prefix of all pushed samples. */
    method Run(clock: seq<(real, string)>) returns (posts: seq<Request>)
      requires Valid()
      modifies this
      ensures Valid()
      ensures takenRs485 == old(takenRs485) + Rs485Samples(posts)
      ensures flushedAdxl == old(flushedAdxl) + BatchSamples(posts)
      ensures flushedAdxl <= pushedAdxl && takenRs485 <= pushedRs485
      ensures running == old(running)
      ensures pushedRs485 == old(pushedRs485) && pushedAdxl == old(pushedAdxl)
    {
      posts := [];
      var i := 0;
      while i < |clock| && running && alive
        invariant Valid()
        invariant 0 <= i <= |clock|
        invariant takenRs485 == old(takenRs485) + Rs485Samples(posts)
        invariant flushedAdxl == old(flushedAdxl) + BatchSamples(posts)
        invariant running == old(running)
        invariant pushedRs485 == old(pushedRs485) && pushedAdxl == old(pushedAdxl)
      {
        var step := Step(clock[i].0, clock[i].1);
        Rs485SamplesConcat(posts, step);
        BatchSamplesConcat(posts, step);
        posts := posts + step;
        i := i + 1;
      }
    }
  }
}
