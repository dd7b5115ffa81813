/**
 * Change detection for remote manifests (watcher.py): a `Watcher` polls one
 * url and emits an update when the fetched content's digest changes, and a
 * `WatcherPool` keeps the live watchers by url, a graveyard of retired ones,
 * and the slot list its stop and shutdown signals broadcast to.
 *
 * The network fetch is an input of each poll, the digest (SHA-512 as a hex
 * string) is a function the watchers are given, timers are a state flag,
 * and signal emissions are direct calls or returned values.
 */
module Watching {
  import opened Wrappers

  type Bytes = seq<bv8>
  type Digest = string

  /** The outcome of `requests.get(url)`: a transport error or a response. */
  datatype Fetch = TransportError | Response(status: int, content: Bytes, text: string)

  /** The payload of the `updated` signal: the url and the fetched text. */
  datatype Update = Update(url: string, text: string)

  /** `self.timer`: no timer yet, a started timer, or a stopped one. */
  datatype Timer = NoTimer | Active | Inactive

  /** `raise_for_status` raises for client (4xx) and server (5xx) errors. */
  predicate RaisesForStatus(status: int)
  {
    400 <= status < 600
  }

  /** The fetch produced a body that `run` goes on to fingerprint. */
  predicate Succeeded(f: Fetch)
  {
    f.Response? && !RaisesForStatus(f.status)
  }

  /**
   * One `run`: from the stored digest `check` and a fetch, the digest stored
   * afterwards and the update emitted, if any.
   */
  function Observe(check: Option<Digest>, url: string, f: Fetch, fingerprint: Bytes -> Digest): (Option<Digest>, Option<Update>)
  {
    if !Succeeded(f) then (check, None)
    else
      var digest := fingerprint(f.content);
      if check == Some(digest) then (check, None) else (Some(digest), Some(Update(url, f.text)))
  }

  /**
   * A failed fetch changes nothing; a successful one stores its digest and
   * emits `(url, text)` exactly when that digest differs from the stored one.
   */
  lemma ObserveEmitsOnChange(check: Option<Digest>, url: string, f: Fetch, fingerprint: Bytes -> Digest)
    ensures !Succeeded(f) ==> Observe(check, url, f, fingerprint) == (check, None)
    ensures Succeeded(f) ==>
              && Observe(check, url, f, fingerprint).0 == Some(fingerprint(f.content))
              && (Observe(check, url, f, fingerprint).1.Some? <==> check != Some(fingerprint(f.content)))
    ensures Observe(check, url, f, fingerprint).1.Some? ==>
              Observe(check, url, f, fingerprint).1.value == Update(url, f.text)
  {
  }

  /** The digest and the updates after `run` is called once per fetch, in order. */
  function PollAll(check: Option<Digest>, url: string, fs: seq<Fetch>, fingerprint: Bytes -> Digest): (r: (Option<Digest>, seq<Update>))
    ensures |r.1| <= |fs|
    ensures forall i :: 0 <= i < |r.1| ==> r.1[i].url == url
    decreases |fs|
  {
    if fs == [] then (check, [])
    else
      var step := Observe(check, url, fs[0], fingerprint);
      var rest := PollAll(step.0, url, fs[1..], fingerprint);
      (rest.0, (if step.1.Some? then [step.1.value] else []) + rest.1)
  }

  /** Polls that all return the same content emit nothing once its digest is stored. */
  lemma {:induction false} SteadyContentIsSilent(url: string, fs: seq<Fetch>, fingerprint: Bytes -> Digest, digest: Digest)
    requires forall i :: 0 <= i < |fs| ==> Succeeded(fs[i]) && fingerprint(fs[i].content) == digest
    ensures PollAll(Some(digest), url, fs, fingerprint) == (Some(digest), [])
  {
    if fs != [] {
      SteadyContentIsSilent(url, fs[1..], fingerprint, digest);
    }
  }

  /**
   * A fresh watcher (no stored digest) that keeps fetching the same content
   * emits exactly once, on the first poll.
   */
  lemma SteadyContentEmitsOnce(url: string, fs: seq<Fetch>, fingerprint: Bytes -> Digest)
    requires fs != [] && Succeeded(fs[0])
    requires forall i :: 0 <= i < |fs| ==> Succeeded(fs[i]) && fingerprint(fs[i].content) == fingerprint(fs[0].content)
    ensures PollAll(None, url, fs, fingerprint).1 == [Update(url, fs[0].text)]
  {
    SteadyContentIsSilent(url, fs[1..], fingerprint, fingerprint(fs[0].content));
  }

  /** Same content twice, then different content: two updates, the first and the third. */
  lemma ChangeAfterSteadyEmitsAgain(url: string, a: Fetch, b: Fetch, fingerprint: Bytes -> Digest)
    requires Succeeded(a) && Succeeded(b)
    requires fingerprint(a.content) != fingerprint(b.content)
    ensures PollAll(None, url, [a, a, b], fingerprint).1 == [Update(url, a.text), Update(url, b.text)]
  {
    var da, db := fingerprint(a.content), fingerprint(b.content);
    var last := PollAll(Some(da), url, [b], fingerprint);
    assert [b][1..] == [];
    assert PollAll(Some(db), url, [], fingerprint) == (Some(db), []);
    assert last == (Some(db), [Update(url, b.text)] + []);
    assert [a, b][1..] == [b];
    assert PollAll(Some(da), url, [a, b], fingerprint) == (Some(db), [] + last.1);
    assert [a, a, b][1..] == [a, b];
  }

  /** The timer after `stop(u)` on a watcher of `own`. */
  function AfterStop(t: Timer, own: string, u: string): Timer
  {
    if t != NoTimer && u == own then Inactive else t
  }

  /** The timer after `shutdown()`. */
  function AfterShutdown(t: Timer): Timer
  {
    if t != NoTimer then Inactive else t
  }

  /** `stop` is idempotent, and it never leaves a timer running for its own url. */
  lemma StopIdempotent(t: Timer, own: string, u: string)
    ensures AfterStop(AfterStop(t, own, u), own, u) == AfterStop(t, own, u)
    ensures u == own ==> AfterStop(t, own, u) != Active
    ensures u != own ==> AfterStop(t, own, u) == t
  {
  }

  class Watcher {
    const url: string
    /** `hashlib.sha512(...).hexdigest()`. */
    const fingerprint: Bytes -> Digest
    var check: Option<Digest>
    var timer: Timer

    constructor (url: string, fingerprint: Bytes -> Digest)
      ensures this.url == url && this.fingerprint == fingerprint
      ensures check == None && timer == NoTimer
    {
      this.url := url;
      this.fingerprint := fingerprint;
      check := None;
      timer := NoTimer;
    }

    /** `start`: create and start a timer, then poll once straight away. */
    method Start(fetch: Fetch) returns (update: Option<Update>)
      modifies this
      ensures timer == Active
      ensures (check, update) == Observe(old(check), url, fetch, fingerprint)
    {
      timer := Active;
      update := Run(fetch);
    }

    /** `stop(u)`: stop the timer, if there is one and `u` is this watcher's url. */
    method Stop(u: string)
      modifies this`timer
      ensures timer == AfterStop(old(timer), url, u)
    {
      if timer != NoTimer {
        if u == url {
          timer := Inactive;
        }
      }
    }

    /** `shutdown`: stop the timer, if there is one, whatever its url. */
    method Shutdown()
      modifies this`timer
      ensures timer == AfterShutdown(old(timer))
    {
      if timer != NoTimer {
        timer := Inactive;
      }
    }

    /** `run`: fingerprint a successful fetch and emit when the digest changed. */
    method Run(fetch: Fetch) returns (update: Option<Update>)
      modifies this`check
      ensures (check, update) == Observe(old(check), url, fetch, fingerprint)
    {
      update := None;
      if fetch.Response? && !RaisesForStatus(fetch.status) {
        var digest := fingerprint(fetch.content);
        if check != Some(digest) {
          check := Some(digest);
          update := Some(Update(url, fetch.text));
        }
      }
    }

    /** The timer firing: `run` is called only while the timer is started. */
    method Timeout(fetch: Fetch) returns (update: Option<Update>)
      modifies this`check
      ensures timer == Active ==> (check, update) == Observe(old(check), url, fetch, fingerprint)
      ensures timer != Active ==> check == old(check) && update == None
    {
      if timer == Active {
        update := Run(fetch);
      } else {
        update := None;
      }
    }
  }

  class WatcherPool {
    const fingerprint: Bytes -> Digest
    var watchers: map<string, Watcher>
    var graveyard: seq<Watcher>
    /** The watchers connected to the stop and shutdown signals, in connection order. */
    var connected: seq<Watcher>
    /** Whether the pool's worker thread is running. */
    var threadRunning: bool

    /**
     * Each live watcher is keyed by its own url; every live and retired
     * watcher is connected to the broadcasts, each once.
     */
    ghost predicate Valid()
      reads this
    {
      && (forall u :: u in watchers ==> watchers[u].url == u && watchers[u] in connected)
      && (forall j :: 0 <= j < |graveyard| ==> graveyard[j] in connected)
      && (forall i, j :: 0 <= i < j < |connected| ==> connected[i] != connected[j])
    }

    /** A pool with no watchers whose worker thread has been started. */
    constructor (fingerprint: Bytes -> Digest)
      ensures Valid()
      ensures this.fingerprint == fingerprint
      ensures watchers == map[] && graveyard == [] && connected == [] && threadRunning
    {
      this.fingerprint := fingerprint;
      watchers := map[];
      graveyard := [];
      connected := [];
      threadRunning := true;
    }

    /** `stopTrigger.emit(u)`: every connected watcher receives `stop(u)`. */
    method EmitStop(u: string)
      requires Valid()
      modifies connected
      ensures forall j :: 0 <= j < |connected| ==>
                && connected[j].timer == AfterStop(old(connected[j].timer), connected[j].url, u)
                && connected[j].check == old(connected[j].check)
    {
      var i := 0;
      while i < |connected|
        invariant 0 <= i <= |connected|
        invariant forall j :: 0 <= j < i ==>
                    connected[j].timer == AfterStop(old(connected[j].timer), connected[j].url, u)
        invariant forall j :: i <= j < |connected| ==> connected[j].timer == old(connected[j].timer)
        invariant forall j :: 0 <= j < |connected| ==> connected[j].check == old(connected[j].check)
      {
        connected[i].Stop(u);
        i := i + 1;
      }
    }

    /** `shutdownTrigger.emit()`: every connected watcher receives `shutdown()`. */
    method EmitShutdown()
      requires Valid()
      modifies connected
      ensures forall j :: 0 <= j < |connected| ==>
                && connected[j].timer == AfterShutdown(old(connected[j].timer))
                && connected[j].check == old(connected[j].check)
    {
      var i := 0;
      while i < |connected|
        invariant 0 <= i <= |connected|
        invariant forall j :: 0 <= j < i ==> connected[j].timer == AfterShutdown(old(connected[j].timer))
        invariant forall j :: i <= j < |connected| ==> connected[j].timer == old(connected[j].timer)
        invariant forall j :: 0 <= j < |connected| ==> connected[j].check == old(connected[j].check)
      {
        connected[i].Shutdown();
        i := i + 1;
      }
    }

    /**
     * `remove(url)`: if a watcher for `url` is live, broadcast `stop(url)` and
     * move that watcher to the end of the graveyard.
     */
    method Remove(url: string)
      requires Valid()
      modifies this, connected
      ensures Valid()
      ensures connected == old(connected) && threadRunning == old(threadRunning)
      ensures url !in old(watchers) ==> watchers == old(watchers) && graveyard == old(graveyard)
      ensures url in old(watchers) ==>
                && watchers == old(watchers) - {url}
                && graveyard == old(graveyard) + [old(watchers)[url]]
      ensures forall j :: 0 <= j < |connected| ==>
                && connected[j].check == old(connected[j].check)
                && connected[j].timer ==
                     if url in old(watchers) then AfterStop(old(connected[j].timer), connected[j].url, url)
                     else old(connected[j].timer)
    {
      if url in watchers {
        EmitStop(url);
        graveyard := graveyard + [watchers[url]];
        watchers := watchers - {url};
      }
    }

    /**
     * `add(url)`: retire any live watcher for `url`, then install, connect and
     * (with the worker thread running) start a fresh one. No other watcher is
     * started; the first poll's update, if any, is returned.
     */
    method Add(url: string, fetch: Fetch) returns (update: Option<Update>)
      requires Valid()
      modifies this, connected
      ensures Valid()
      ensures url in watchers && fresh(watchers[url])
      ensures watchers == old(watchers)[url := watchers[url]]
      ensures watchers[url].url == url && watchers[url].fingerprint == fingerprint
      ensures connected == old(connected) + [watchers[url]]
      ensures graveyard == if url in old(watchers) then old(graveyard) + [old(watchers)[url]] else old(graveyard)
      ensures threadRunning == old(threadRunning)
      ensures threadRunning ==>
                && watchers[url].timer == Active
                && (watchers[url].check, update) == Observe(None, url, fetch, fingerprint)
      ensures !threadRunning ==> watchers[url].timer == NoTimer && watchers[url].check == None && update == None
      ensures forall j :: 0 <= j < |old(connected)| ==>
                && connected[j].check == old(connected[j].check)
                && connected[j].timer ==
                     if url in old(watchers) then AfterStop(old(connected[j].timer), connected[j].url, url)
                     else old(connected[j].timer)
    {
      if url in watchers {
        Remove(url);
      }
      update := Install(url, fetch);
    }

    /**
     * The rest of `add(url)` once no watcher for `url` is live: create the
     * watcher, connect it to the broadcasts and start it on a running thread.
     */
    method Install(url: string, fetch: Fetch) returns (update: Option<Update>)
      requires Valid() && url !in watchers
      modifies this
      ensures Valid()
      ensures url in watchers && fresh(watchers[url])
      ensures watchers == old(watchers)[url := watchers[url]]
      ensures watchers[url].url == url && watchers[url].fingerprint == fingerprint
      ensures connected == old(connected) + [watchers[url]]
      ensures graveyard == old(graveyard) && threadRunning == old(threadRunning)
      ensures threadRunning ==>
                && watchers[url].timer == Active
                && (watchers[url].check, update) == Observe(None, url, fetch, fingerprint)
      ensures !threadRunning ==> watchers[url].timer == NoTimer && watchers[url].check == None && update == None
    {
      var w := new Watcher(url, fingerprint);
      watchers := watchers[url := w];
      connected := connected + [w];
      if threadRunning {
        update := w.Start(fetch);
      } else {
        update := None;
      }
    }

    /**
     * `shutdown()`: broadcast `shutdown()` to every watcher ever added, live
     * or retired, then stop the worker thread. Afterwards no timer runs.
     */
    method Shutdown()
      requires Valid()
      modifies this, connected
      ensures Valid()
      ensures watchers == old(watchers) && graveyard == old(graveyard) && connected == old(connected)
      ensures !threadRunning
      ensures forall j :: 0 <= j < |connected| ==>
                && connected[j].timer == AfterShutdown(old(connected[j].timer))
                && connected[j].check == old(connected[j].check)
      ensures forall u :: u in watchers ==> watchers[u].timer != Active
      ensures forall j :: 0 <= j < |graveyard| ==> graveyard[j].timer != Active
    {
      EmitShutdown();
      threadRunning := false;
    }
  }

  /**
   * After the pool shuts down, a timer firing on any watcher it ever
   * connected, live or retired, emits nothing.
   */
  method NoUpdateAfterShutdown(pool: WatcherPool, w: Watcher, fetch: Fetch) returns (update: Option<Update>)
    requires pool.Valid() && w in pool.connected
    modifies pool, pool.connected
    ensures update == None
  {
    pool.Shutdown();
    update := w.Timeout(fetch);
  }
}
