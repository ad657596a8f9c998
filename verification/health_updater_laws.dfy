/**
 * What the leak-event processor guarantees, stated about its step functions:
 * path extraction, metadata filtering, the dedup rule, the single sink call per
 * change, no commit on a failed call, independence of sensor paths, and the
 * invariants kept over a whole run.
 */
module HealthUpdaterLaws {
  import opened Wrappers
  import opened Text
  import opened Messages
  import opened HealthUpdater

  // ---- Path extraction ----

  lemma ExtractFromMetadataTopic(prefix: string, path: string)
    ensures ExtractPointPath(prefix + path + MetadataSuffix, prefix) == Some(path)
  {
    StripSuffixOfConcat(prefix + path, MetadataSuffix);
    StripPrefixOfConcat(prefix, path);
  }

  lemma ExtractFromValueTopic(prefix: string, path: string)
    ensures ExtractPointPath(prefix + path + ValueSuffix, prefix) == Some(path)
  {
    var topic := prefix + path + ValueSuffix;
    assert !EndsWith(topic, MetadataSuffix) by {
      assert topic[|topic| - 1] == 'e';
    }
    StripSuffixOfConcat(prefix + path, ValueSuffix);
    StripPrefixOfConcat(prefix, path);
  }

  // ---- Metadata messages ----

  /** Unsupported metadata is never cached: the step changes nothing. */
  lemma UnsupportedMetadataIgnored(prefix: string, st: State, topic: string, metadata: LeakMetadata)
    requires !IsSupportedLeakType(metadata)
    ensures OnMetadata(prefix, st, topic, metadata) == st
  {
  }

  /** A value that follows unsupported metadata for an uncached path makes no sink call. */
  lemma UnsupportedMetadataThenValue(prefix: string, accepts: Oracle, st: State, path: string, metadata: LeakMetadata, v: FaultValue)
    requires !IsSupportedLeakType(metadata)
    requires path !in st.metadata
    ensures OnValue(prefix, accepts, OnMetadata(prefix, st, prefix + path + MetadataSuffix, metadata), prefix + path + ValueSuffix, v) == st
  {
    ExtractFromValueTopic(prefix, path);
  }

  /** Supported metadata overwrites exactly its own path's entry. */
  lemma SupportedMetadataOverwrites(prefix: string, st: State, topic: string, metadata: LeakMetadata, path: string)
    requires IsSupportedLeakType(metadata)
    requires ExtractPointPath(topic, prefix) == Some(path)
    ensures OnMetadata(prefix, st, topic, metadata) == State(st.metadata[path := metadata], st.values, st.log)
  {
  }

  /** Metadata steps keep the cache free of unsupported point types. */
  lemma MetadataKeepsSupported(prefix: string, st: State, topic: string, metadata: LeakMetadata)
    requires AllSupported(st.metadata)
    ensures AllSupported(OnMetadata(prefix, st, topic, metadata).metadata)
  {
  }

  // ---- Value messages ----

  /** A value with no extractable path, or with no cached metadata, changes nothing and calls nothing. */
  lemma ValueWithoutMetadataIsNoop(prefix: string, accepts: Oracle, st: State, topic: string, v: FaultValue)
    requires ExtractPointPath(topic, prefix).None? || ExtractPointPath(topic, prefix).value !in st.metadata
    ensures OnValue(prefix, accepts, st, topic, v) == st
  {
  }

  /** Dedup: a value equal to the committed one makes no call and leaves the entry untouched. */
  lemma DuplicateValueSkipped(prefix: string, accepts: Oracle, st: State, topic: string, v: FaultValue)
    requires ExtractPointPath(topic, prefix).Some?
    requires var path := ExtractPointPath(topic, prefix).value; path in st.values && st.values[path] == v
    ensures OnValue(prefix, accepts, st, topic, v) == st
  {
  }

  /**
   * A changed value makes exactly one sink call with the cached rack id
   * (an insert of the leak report for Faulting, a remove for Clear), and
   * commits the value exactly when the sink accepts that call.
   */
  lemma ChangedValueCallsSinkOnce(prefix: string, accepts: Oracle, st: State, topic: string, v: FaultValue, path: string)
    requires ExtractPointPath(topic, prefix) == Some(path)
    requires path in st.metadata && IsSupportedLeakType(st.metadata[path])
    requires !(path in st.values && st.values[path] == v)
    ensures var r := OnValue(prefix, accepts, st, topic, v);
      var md := st.metadata[path];
      && |r.log| == |st.log| + 1 && r.log[..|st.log|] == st.log
      && r.log[|st.log|].rackId == md.rackId
      && (r.log[|st.log|].Insert? <==> v == Faulting)
      && (r.log[|st.log|].Insert? ==> r.log[|st.log|].report == BuildLeakAlertReport(md, LeakPointTypeOf(md).value))
      && r.metadata == st.metadata
      && r.values == (if accepts(|st.log|, r.log[|st.log|]) then st.values[path := v] else st.values)
  {
    var r := OnValue(prefix, accepts, st, topic, v);
    assert r.log[..|st.log|] == st.log;
  }

  /** A value step touches no cache entry except its own path's value. */
  lemma OtherPathsUntouched(prefix: string, accepts: Oracle, st: State, topic: string, v: FaultValue, other: string)
    requires ExtractPointPath(topic, prefix) != Some(other)
    ensures var r := OnValue(prefix, accepts, st, topic, v);
      && r.metadata == st.metadata
      && (other in r.values <==> other in st.values)
      && (other in st.values ==> r.values[other] == st.values[other])
  {
  }

  // ---- Sequences of value messages on one path ----

  /** Shorthand: `CallFor` applied to the metadata cached for `path`. */
  function PendingCall(st: State, path: string, v: FaultValue): SinkCall
    requires path in st.metadata && IsSupportedLeakType(st.metadata[path])
  {
    CallFor(st.metadata[path], LeakPointTypeOf(st.metadata[path]).value, v)
  }

  /** Sending the same value twice makes one call when the first is accepted. */
  lemma SameValueTwiceCallsOnce(prefix: string, accepts: Oracle, st: State, path: string, v: FaultValue)
    requires path in st.metadata && IsSupportedLeakType(st.metadata[path])
    requires !(path in st.values && st.values[path] == v)
    requires accepts(|st.log|, PendingCall(st, path, v))
    ensures var topic := prefix + path + ValueSuffix;
      var s1 := OnValue(prefix, accepts, st, topic, v);
      && s1.log == st.log + [PendingCall(st, path, v)]
      && s1.values == st.values[path := v]
      && OnValue(prefix, accepts, s1, topic, v) == s1
  {
    ExtractFromValueTopic(prefix, path);
  }

  /** A failed call commits nothing, so the same value is sent again rather than skipped. */
  lemma FailedCallIsRetried(prefix: string, accepts: Oracle, st: State, path: string, v: FaultValue)
    requires path in st.metadata && IsSupportedLeakType(st.metadata[path])
    requires !(path in st.values && st.values[path] == v)
    requires !accepts(|st.log|, PendingCall(st, path, v))
    ensures var topic := prefix + path + ValueSuffix;
      var s1 := OnValue(prefix, accepts, st, topic, v);
      && s1.values == st.values
      && (path !in st.values ==> path !in s1.values)
      && OnValue(prefix, accepts, s1, topic, v).log == st.log + [PendingCall(st, path, v), PendingCall(st, path, v)]
  {
    ExtractFromValueTopic(prefix, path);
  }

  /** Faulting, Clear, Faulting on one path: insert, remove, insert, in that order. */
  lemma FaultClearFault(prefix: string, accepts: Oracle, st: State, path: string)
    requires path in st.metadata && IsSupportedLeakType(st.metadata[path])
    requires !(path in st.values && st.values[path] == Faulting)
    requires accepts(|st.log|, PendingCall(st, path, Faulting))
    requires accepts(|st.log| + 1, PendingCall(st, path, Clear))
    ensures var topic := prefix + path + ValueSuffix;
      var s1 := OnValue(prefix, accepts, st, topic, Faulting);
      var s2 := OnValue(prefix, accepts, s1, topic, Clear);
      var s3 := OnValue(prefix, accepts, s2, topic, Faulting);
      var rack := st.metadata[path].rackId;
      && s3.log == st.log + [PendingCall(st, path, Faulting), Remove(rack), PendingCall(st, path, Faulting)]
      && PendingCall(st, path, Faulting).Insert? && PendingCall(st, path, Faulting).rackId == rack
  {
    ExtractFromValueTopic(prefix, path);
  }

  /** Two sensor paths that both start faulting each make their own insert, with their own rack id. */
  lemma DistinctPathsIndependent(prefix: string, accepts: Oracle, st: State, p1: string, p2: string)
    requires p1 != p2
    requires p1 in st.metadata && IsSupportedLeakType(st.metadata[p1])
    requires p2 in st.metadata && IsSupportedLeakType(st.metadata[p2])
    requires !(p1 in st.values && st.values[p1] == Faulting)
    requires !(p2 in st.values && st.values[p2] == Faulting)
    ensures var s1 := OnValue(prefix, accepts, st, prefix + p1 + ValueSuffix, Faulting);
      var s2 := OnValue(prefix, accepts, s1, prefix + p2 + ValueSuffix, Faulting);
      && s2.log == st.log + [PendingCall(st, p1, Faulting), PendingCall(st, p2, Faulting)]
      && s2.log[|st.log|].Insert? && s2.log[|st.log|].rackId == st.metadata[p1].rackId
      && s2.log[|st.log| + 1].Insert? && s2.log[|st.log| + 1].rackId == st.metadata[p2].rackId
  {
    ExtractFromValueTopic(prefix, p1);
    ExtractFromValueTopic(prefix, p2);
    var s1 := OnValue(prefix, accepts, st, prefix + p1 + ValueSuffix, Faulting);
    OtherPathsUntouched(prefix, accepts, st, prefix + p1 + ValueSuffix, Faulting, p2);
    assert s1.metadata == st.metadata;
    var c1 := PendingCall(st, p1, Faulting);
    var c2 := PendingCall(st, p2, Faulting);
    assert s1.log == st.log + [c1];
    var s2 := OnValue(prefix, accepts, s1, prefix + p2 + ValueSuffix, Faulting);
    assert s2.log == s1.log + [c2];
    assert c1.Insert? && c1.rackId == st.metadata[p1].rackId;
    assert c2.Insert? && c2.rackId == st.metadata[p2].rackId;
  }

  /** `n` copies of one message. */
  function Repeat(m: Message, n: nat): (ms: seq<Message>)
    ensures |ms| == n && forall i :: 0 <= i < n ==> ms[i] == m
  {
    seq(n, _ => m)
  }

  /** Dedup law: the same value sent `n >= 1` times makes exactly one call when that call is accepted. */
  lemma {:induction false} RepeatedValueCallsOnce(prefix: string, accepts: Oracle, st: State, path: string, v: FaultValue, n: nat)
    requires n >= 1
    requires path in st.metadata && IsSupportedLeakType(st.metadata[path])
    requires !(path in st.values && st.values[path] == v)
    requires accepts(|st.log|, PendingCall(st, path, v))
    ensures RunSteps(prefix, accepts, st, Repeat(ValueMessage(prefix + path + ValueSuffix, v), n))
         == OnValue(prefix, accepts, st, prefix + path + ValueSuffix, v)
    ensures RunSteps(prefix, accepts, st, Repeat(ValueMessage(prefix + path + ValueSuffix, v), n)).log
         == st.log + [PendingCall(st, path, v)]
  {
    var m := ValueMessage(prefix + path + ValueSuffix, v);
    var ms := Repeat(m, n);
    SameValueTwiceCallsOnce(prefix, accepts, st, path, v);
    assert ms[..n - 1] == Repeat(m, n - 1);
    if n == 1 {
      assert RunSteps(prefix, accepts, st, ms[..0]) == st;
    } else {
      RepeatedValueCallsOnce(prefix, accepts, st, path, v, n - 1);
    }
  }

  /** `run` over a metadata message and then a Faulting value for the same path makes one insert. */
  lemma RunMetadataThenFault(prefix: string, accepts: Oracle, path: string, metadata: LeakMetadata)
    requires IsSupportedLeakType(metadata)
    ensures var msgs := [MetadataMessage(prefix + path + MetadataSuffix, metadata), ValueMessage(prefix + path + ValueSuffix, Faulting)];
      RunSteps(prefix, accepts, State(map[], map[], []), msgs).log
        == [Insert(metadata.rackId, BuildLeakAlertReport(metadata, LeakPointTypeOf(metadata).value))]
  {
    var msgs := [MetadataMessage(prefix + path + MetadataSuffix, metadata), ValueMessage(prefix + path + ValueSuffix, Faulting)];
    var st0 := State(map[], map[], []);
    ExtractFromMetadataTopic(prefix, path);
    ExtractFromValueTopic(prefix, path);
    var one := msgs[..1];
    assert one[..0] == [];
    assert RunSteps(prefix, accepts, st0, one[..0]) == st0;
    assert RunSteps(prefix, accepts, st0, one) == State(map[path := metadata], map[], []);
    assert msgs[..|msgs| - 1] == one;
  }

  // ---- Invariants over a run ----

  /** The sink call that tells the downstream API to hold the given value. */
  predicate Announces(c: SinkCall, v: FaultValue) {
    c.Insert? <==> v == Faulting
  }

  /**
   * Every committed value has a call of the same kind (insert for a fault,
   * remove for a clear) that the sink accepted somewhere in the log: nothing
   * is committed without an accepted call. The call is not tied to the path,
   * since a sink call does not name the point it was made for.
   */
  ghost predicate Backed(accepts: Oracle, st: State) {
    forall path :: path in st.values ==>
      exists i :: 0 <= i < |st.log| && accepts(i, st.log[i]) && Announces(st.log[i], st.values[path])
  }

  lemma {:induction false} StepKeepsInvariants(prefix: string, accepts: Oracle, st: State, msg: Message)
    requires AllSupported(st.metadata) && Backed(accepts, st)
    ensures var r := Step(prefix, accepts, st, msg);
      AllSupported(r.metadata) && Backed(accepts, r) && st.log <= r.log
  {
    var r := Step(prefix, accepts, st, msg);
    match msg
    case MetadataMessage(topic, metadata) =>
    case ValueMessage(topic, v) =>
      forall path | path in r.values
        ensures exists i :: 0 <= i < |r.log| && accepts(i, r.log[i]) && Announces(r.log[i], r.values[path])
      {
        if path in st.values && r.values[path] == st.values[path] {
          var i :| 0 <= i < |st.log| && accepts(i, st.log[i]) && Announces(st.log[i], st.values[path]);
          assert r.log[i] == st.log[i];
        } else {
          var n := |st.log|;
          assert |r.log| == n + 1 && accepts(n, r.log[n]) && Announces(r.log[n], r.values[path]);
        }
      }
  }

  /** Eviction of either cache keeps the invariants: it removes entries and never touches the log. */
  lemma EvictionKeepsInvariants(accepts: Oracle, st: State, path: string)
    requires AllSupported(st.metadata) && Backed(accepts, st)
    ensures AllSupported(EvictMetadata(st, path).metadata) && Backed(accepts, EvictMetadata(st, path))
    ensures AllSupported(EvictValue(st, path).metadata) && Backed(accepts, EvictValue(st, path))
    ensures EvictMetadata(st, path).log == st.log && EvictValue(st, path).log == st.log
  {
    var r := EvictValue(st, path);
    forall q | q in r.values
      ensures exists i :: 0 <= i < |r.log| && accepts(i, r.log[i]) && Announces(r.log[i], r.values[q])
    {
      assert q in st.values && r.values[q] == st.values[q];
    }
  }

  /** Once a remembered value is evicted, the same value calls the sink again: deduplication lasts only as long as the entry. */
  lemma EvictedValueCallsAgain(prefix: string, accepts: Oracle, st: State, path: string, v: FaultValue)
    requires path in st.metadata && IsSupportedLeakType(st.metadata[path])
    ensures var r := OnValue(prefix, accepts, EvictValue(st, path), prefix + path + ValueSuffix, v);
      r.log == st.log + [PendingCall(st, path, v)]
  {
    ExtractFromValueTopic(prefix, path);
  }

  /** Over any sequence of messages the caches stay well-formed, the log only grows, and every value stays backed. */
  lemma {:induction false} RunKeepsInvariants(prefix: string, accepts: Oracle, st: State, msgs: seq<Message>)
    requires AllSupported(st.metadata) && Backed(accepts, st)
    ensures var r := RunSteps(prefix, accepts, st, msgs);
      AllSupported(r.metadata) && Backed(accepts, r) && st.log <= r.log
  {
    if msgs != [] {
      var front := msgs[..|msgs| - 1];
      RunKeepsInvariants(prefix, accepts, st, front);
      StepKeepsInvariants(prefix, accepts, RunSteps(prefix, accepts, st, front), msgs[|msgs| - 1]);
    }
  }

  /** The same invariants hold when evictions are interleaved with the messages. */
  lemma {:induction false} RunEventsKeepsInvariants(prefix: string, accepts: Oracle, st: State, events: seq<Event>)
    requires AllSupported(st.metadata) && Backed(accepts, st)
    ensures var r := RunEvents(prefix, accepts, st, events);
      AllSupported(r.metadata) && Backed(accepts, r) && st.log <= r.log
  {
    if events != [] {
      var front := events[..|events| - 1];
      RunEventsKeepsInvariants(prefix, accepts, st, front);
      var mid := RunEvents(prefix, accepts, st, front);
      match events[|events| - 1]
      case Deliver(msg) => StepKeepsInvariants(prefix, accepts, mid, msg);
      case MetadataExpired(path) => EvictionKeepsInvariants(accepts, mid, path);
      case ValueExpired(path) => EvictionKeepsInvariants(accepts, mid, path);
    }
  }
}
