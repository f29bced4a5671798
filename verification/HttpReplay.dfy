/** What an origin that answers repeated requests with their first result does to the executor's guarantees. */
module HttpReplay {
  import opened Text
  import opened Crypto
  import opened HttpOrigin
  import opened HttpSafety

  /** The calls presented in a run, in order. */
  predicate Presents(s: State, calls: seq<Call>) {
    |s.execs| == |calls| && forall k :: 0 <= k < |calls| ==> s.execs[k].call == calls[k]
  }

  /** The j-th call can be taken for a repeat of another one, and neither is stopped by its own arguments. */
  predicate RepeatsCall(w: World, calls: seq<Call>, j: nat)
    requires j < |calls|
  {
    Clear(calls[j]) && exists x :: 0 <= x < |calls| && x != j && Clear(calls[x]) && Related(w, calls[j], calls[x])
  }

  /** Of another one, or of a request of some other user agent. */
  ghost predicate Repeats(w: World, calls: seq<Call>, j: nat)
    requires j < |calls|
  {
    RepeatsCall(w, calls, j) || (Clear(calls[j]) && RepeatsForeign(w, calls[j]))
  }

  predicate OnePerPin(s: State) {
    forall i, j :: 0 <= i < |s.execs| && 0 <= j < |s.execs| && i != j && ReturnedOk(s.execs[i]) && ReturnedOk(s.execs[j]) ==>
      !SamePin(s.execs[i].call, s.execs[j].call)
  }

  predicate AccusedRightly(s: State) {
    forall i :: 0 <= i < |s.execs| && NotHonored(s.execs[i]) ==> FuturePin(s, i)
  }

  // ---------------------------------------------------------------- building runs

  /** Any number of calls, presented and nothing else. */
  function Waiting(calls: seq<Call>): State {
    State(map[], seq(|calls|, k requires 0 <= k < |calls| => Exec(calls[k], Presented, 0, None)))
  }

  lemma {:induction false} AllPresented(w: World, calls: seq<Call>) returns (acts: seq<Action>)
    ensures Reaches(w, acts, Waiting(calls))
  {
    if calls == [] {
      acts := [];
      assert Waiting(calls).execs == [];
    } else {
      var n := |calls| - 1;
      acts := AllPresented(w, calls[..n]);
      acts := Extend(w, acts, Waiting(calls[..n]), Spawn(calls[n]));
      assert Next(w, Waiting(calls[..n]), Spawn(calls[n])).execs == Waiting(calls).execs;
    }
  }

  /** Call i is exactly e and everything else is as in s. */
  predicate Moved(s: State, s': State, i: nat, e: Exec) {
    i < |s.execs| && s'.execs == s.execs[i := e]
  }

  /** What a call observes when its precondition holds. */
  function Pinned(call: Call): Option<string> { if IsCreateIntentPin(call.pin) then None else Some(call.pin) }

  /** The origin shows what there is, with its ETag. */
  function Shown(o: Origin, url: string): Reply {
    var h := History(o, url);
    if h == [] then Reply(404, None) else Reply(200, Some(h[|h| - 1].etag))
  }

  /** From presentation to the point before the write, over whatever is there now. */
  lemma Observes(w: World, acts: seq<Action>, s: State, i: nat, etag: Option<string>) returns (acts': seq<Action>, s': State)
    requires Reaches(w, acts, s) && i < |s.execs| && s.execs[i].pc.Presented? && Clear(s.execs[i].call)
    requires etag == Shown(s.origin, UrlOf(s.execs[i].call)).etag
    requires ObserveRefusal(s.execs[i].call, ObserveEtag(Some(Shown(s.origin, UrlOf(s.execs[i].call))))).None?
    ensures Reaches(w, acts', s') && s'.origin == s.origin
    ensures var n := |History(s.origin, UrlOf(s.execs[i].call))|;
            Moved(s, s', i, Exec(s.execs[i].call, Watched(etag, n), n, s.execs[i].wrote))
  {
    acts' := Starts(w, acts, s, i);
    var s1 := Goto(s, i, Cleared);
    var shown := Some(Shown(s.origin, UrlOf(s.execs[i].call)));
    acts' := Extend(w, acts', s1, Observe(i, shown));
    s' := Next(w, s1, Observe(i, shown));
  }

  /** The same where the precondition holds. */
  lemma SeesPin(w: World, acts: seq<Action>, s: State, i: nat) returns (acts': seq<Action>, s': State)
    requires Reaches(w, acts, s) && i < |s.execs| && s.execs[i].pc.Presented? && Clear(s.execs[i].call)
    requires Precondition(s.origin, s.execs[i].call)
    ensures Reaches(w, acts', s') && s'.origin == s.origin
    ensures var n := |History(s.origin, UrlOf(s.execs[i].call))|;
            Moved(s, s', i, Exec(s.execs[i].call, Watched(Pinned(s.execs[i].call), n), n, s.execs[i].wrote))
  {
    acts', s' := Observes(w, acts, s, i, Pinned(s.execs[i].call));
  }

  /** The write lands and is answered, and the call returns ok. */
  lemma WritesOk(w: World, acts: seq<Action>, s: State, i: nat, etag: string) returns (acts': seq<Action>, s': State)
    requires Reaches(w, acts, s) && i < |s.execs| && s.execs[i].pc.Watched?
    requires s.execs[i].pc.etag == Pinned(s.execs[i].call)
    requires Precondition(s.origin, s.execs[i].call) && FreshEtag(s.origin, UrlOf(s.execs[i].call), etag)
    ensures Reaches(w, acts', s') && i < |s'.execs| && Moved(s, s', i, s'.execs[i])
    ensures s'.execs[i].call == s.execs[i].call && ReturnedOk(s'.execs[i])
    ensures s'.origin == Append(s.origin, UrlOf(s.execs[i].call), Rep(etag, Some(i), Some(s.execs[i].call)))
  {
    var put := Put(i, Some(Reply(200, Some(etag))), Some(etag));
    acts' := Extend(w, acts, s, put);
    var s1 := Next(w, s, put);
    acts' := Extend(w, acts', s1, Seal(i));
    s' := Next(w, s1, Seal(i));
    assert s'.execs == s.execs[i := s'.execs[i]];
  }

  /** The write is answered with an earlier result, and the call returns ok. */
  lemma ReplaysOk(w: World, acts: seq<Action>, s: State, i: nat, k: nat) returns (acts': seq<Action>, s': State)
    requires Reaches(w, acts, s) && i < |s.execs| && s.execs[i].pc.Watched?
    requires s.execs[i].pc.etag == Pinned(s.execs[i].call) && ReplayOf(w, s.origin, s.execs[i].call, k)
    ensures Reaches(w, acts', s') && i < |s'.execs| && Moved(s, s', i, s'.execs[i]) && s'.origin == s.origin
    ensures s'.execs[i].call == s.execs[i].call && ReturnedOk(s'.execs[i]) && s'.execs[i].wrote == s.execs[i].wrote
  {
    var put := Put(i, Some(Reply(200, None)), None);
    acts' := Extend(w, acts, s, put);
    var s1 := Next(w, s, put);
    acts' := Extend(w, acts', s1, Seal(i));
    s' := Next(w, s1, Seal(i));
    assert s'.execs == s.execs[i := s'.execs[i]];
  }

  /** Somebody else writes. */
  lemma SomebodyWrites(w: World, acts: seq<Action>, s: State, url: string, etag: string, request: Option<Call>)
    returns (acts': seq<Action>, s': State)
    requires Reaches(w, acts, s) && FreshEtag(s.origin, url, etag)
    requires request.Some? ==> UrlOf(request.value) == url && w.foreign(request.value)
    ensures Reaches(w, acts', s') && s'.execs == s.execs && s'.origin == Append(s.origin, url, Rep(etag, None, request))
  {
    acts' := Extend(w, acts, s, Foreign(url, etag, request));
    s' := Next(w, s, Foreign(url, etag, request));
  }

  /** On a URL without history, whatever this call is pinned to comes to be. */
  lemma PinComes(w: World, acts: seq<Action>, s: State, call: Call) returns (acts': seq<Action>, s': State)
    requires Reaches(w, acts, s) && History(s.origin, UrlOf(call)) == []
    ensures Reaches(w, acts', s') && s'.execs == s.execs && Precondition(s'.origin, call)
    ensures History(s'.origin, UrlOf(call)) == if IsCreateIntentPin(call.pin) then [] else [Rep(call.pin, None, None)]
  {
    acts', s' := acts, s;
    if !IsCreateIntentPin(call.pin) {
      acts', s' := SomebodyWrites(w, acts, s, UrlOf(call), call.pin, None);
      assert [] + [Rep(call.pin, None, None)] == [Rep(call.pin, None, None)];
    }
  }

  /** A strong ETag of this many characters and more. */
  function Tag(n: nat): (t: string)
    ensures |t| == n + 3 && IsStrongEtag(t)
  {
    var t := "\"" + Repeat('t', n + 1) + "\"";
    assert t[1..|t| - 1] == Repeat('t', n + 1);
    t
  }

  // ---------------------------------------------------------------- two calls with one pin

  /** Both observe the pinned state; the first writes, and the second is answered with the first one's result. */
  lemma TwinReturnsOk(w: World, calls: seq<Call>, x: nat, j: nat) returns (acts: seq<Action>, s: State)
    requires x < |calls| && j < |calls| && x != j && Clear(calls[x]) && Clear(calls[j])
    requires SamePin(calls[x], calls[j]) && Related(w, calls[j], calls[x])
    ensures Reaches(w, acts, s) && Presents(s, calls) && ReturnedOk(s.execs[x]) && ReturnedOk(s.execs[j])
    ensures s.execs[j].wrote.None?
  {
    acts := AllPresented(w, calls);
    var s1, s2, s3, s4;
    acts, s1 := PinComes(w, acts, Waiting(calls), calls[x]);
    acts, s2 := SeesPin(w, acts, s1, x);
    acts, s3 := SeesPin(w, acts, s2, j);
    var etag := Tag(|calls[x].pin|);
    acts, s4 := WritesOk(w, acts, s3, x, etag);
    var k := |History(s3.origin, UrlOf(calls[x]))|;
    acts, s := ReplaysOk(w, acts, s4, j, k);
  }

  // ---------------------------------------------------------------- three calls

  /** Call x writes over its own pinned state, on a URL nobody has written to. */
  lemma FirstWriter(w: World, calls: seq<Call>, x: nat, etag: string) returns (acts: seq<Action>, s: State)
    requires x < |calls| && Clear(calls[x]) && etag != calls[x].pin
    ensures Reaches(w, acts, s) && x < |s.execs| && Moved(Waiting(calls), s, x, s.execs[x])
    ensures s.execs[x].call == calls[x] && ReturnedOk(s.execs[x])
    ensures History(s.origin, UrlOf(calls[x])) == WrittenFirst(calls[x], x, etag)
  {
    acts := AllPresented(w, calls);
    var s1, s2;
    acts, s1 := PinComes(w, acts, Waiting(calls), calls[x]);
    acts, s2 := SeesPin(w, acts, s1, x);
    acts, s := WritesOk(w, acts, s2, x, etag);
  }

  function WrittenFirst(call: Call, x: nat, etag: string): seq<Rep> {
    (if IsCreateIntentPin(call.pin) then [] else [Rep(call.pin, None, None)]) + [Rep(etag, Some(x), Some(call))]
  }

  /** Both calls ok on one pin, the second without a write. */
  predicate BothOk(s: State, calls: seq<Call>, i: nat, j: nat) {
    && Presents(s, calls) && i < |s.execs| && j < |s.execs| && i != j
    && ReturnedOk(s.execs[i]) && ReturnedOk(s.execs[j]) && s.execs[j].wrote.None?
  }

  /** Three calls on one URL, two of them with one pin; the third has another, and one of the two repeats it. */
  predicate Thirds(w: World, calls: seq<Call>, i: nat, j: nat, x: nat) {
    && i < |calls| && j < |calls| && x < |calls| && i != j && i != x && j != x
    && Clear(calls[i]) && Clear(calls[j]) && Clear(calls[x])
    && SamePin(calls[i], calls[j]) && !SamePin(calls[x], calls[j]) && Related(w, calls[j], calls[x])
  }

  /** The third writes first; its write is replaced by the state the two are pinned to. */
  lemma ReplayAfterThird(w: World, calls: seq<Call>, i: nat, j: nat, x: nat) returns (acts: seq<Action>, s: State)
    requires Thirds(w, calls, i, j, x) && !IsCreateIntentPin(calls[j].pin)
    ensures Reaches(w, acts, s) && BothOk(s, calls, i, j)
  {
    var n := |calls[j].pin| + |calls[x].pin|;
    var s1;
    acts, s1 := FirstWriter(w, calls, x, Tag(n));
    acts, s := ReplayOnPin(w, calls, i, j, x, acts, s1, n);
  }

  /** After the third's write and a foreign one the repeat can be answered, the pin stands, and a longer tag is new. */
  lemma AfterThird(w: World, calls: seq<Call>, i: nat, j: nat, x: nat, o: Origin, n: nat)
    requires Thirds(w, calls, i, j, x) && !IsCreateIntentPin(calls[j].pin) && n == |calls[j].pin| + |calls[x].pin|
    requires History(o, UrlOf(calls[j])) == WrittenFirst(calls[x], x, Tag(n)) + [Rep(calls[j].pin, None, None)]
    ensures Precondition(o, calls[j]) && FreshEtag(o, UrlOf(calls[j]), Tag(n + 1))
    ensures ReplayOf(w, o, calls[j], |WrittenFirst(calls[x], x, Tag(n))| - 1)
  {
    assert |Tag(n + 1)| == n + 4 && |Tag(n)| == n + 3;
  }

  lemma ReplayOnPin(w: World, calls: seq<Call>, i: nat, j: nat, x: nat, before: seq<Action>, s1: State, n: nat)
    returns (acts: seq<Action>, s: State)
    requires Thirds(w, calls, i, j, x) && !IsCreateIntentPin(calls[j].pin)
    requires n == |calls[j].pin| + |calls[x].pin|
    requires Reaches(w, before, s1) && x < |s1.execs| && Moved(Waiting(calls), s1, x, s1.execs[x])
    requires s1.execs[x].call == calls[x] && History(s1.origin, UrlOf(calls[x])) == WrittenFirst(calls[x], x, Tag(n))
    ensures Reaches(w, acts, s) && BothOk(s, calls, i, j)
  {
    var s2;
    acts, s2 := SomebodyWrites(w, before, s1, UrlOf(calls[j]), calls[j].pin, None);
    AfterThird(w, calls, i, j, x, s2.origin, n);
    acts, s := PairOnPin(w, calls, i, j, |WrittenFirst(calls[x], x, Tag(n))| - 1, acts, s2, Tag(n + 1));
  }

  /** Over the state two calls are pinned to, the first writes and the second is answered with an earlier result. */
  lemma PairOnPin(w: World, calls: seq<Call>, i: nat, j: nat, k: nat, before: seq<Action>, s1: State, etag: string)
    returns (acts: seq<Action>, s: State)
    requires i < |calls| && j < |calls| && i != j && Clear(calls[i]) && Clear(calls[j]) && SamePin(calls[i], calls[j])
    requires Reaches(w, before, s1) && Presents(s1, calls)
    requires s1.execs[i] == Exec(calls[i], Presented, 0, None) && s1.execs[j] == Exec(calls[j], Presented, 0, None)
    requires Precondition(s1.origin, calls[j]) && ReplayOf(w, s1.origin, calls[j], k)
    requires FreshEtag(s1.origin, UrlOf(calls[j]), etag)
    ensures Reaches(w, acts, s) && BothOk(s, calls, i, j)
  {
    var s2, s3, s4;
    acts, s2 := SeesPin(w, before, s1, i);
    acts, s3 := SeesPin(w, acts, s2, j);
    acts, s4 := WritesOk(w, acts, s3, i, etag);
    acts, s := ReplaysOk(w, acts, s4, j, k);
  }

  /** The two create; the third writes after them, and before the second of them does. */
  lemma ReplayOfThird(w: World, calls: seq<Call>, i: nat, j: nat, x: nat) returns (acts: seq<Action>, s: State)
    requires Thirds(w, calls, i, j, x) && IsCreateIntentPin(calls[j].pin)
    ensures Reaches(w, acts, s) && BothOk(s, calls, i, j)
  {
    var n := |calls[x].pin|;
    var s1;
    acts, s1 := OneCreates(w, calls, i, j, Tag(n));
    acts, s := ThirdThenReplay(w, calls, i, j, x, acts, s1, n);
  }

  /** Two create-only calls observe that nothing is there, and the first of them creates. */
  lemma OneCreates(w: World, calls: seq<Call>, i: nat, j: nat, etag: string) returns (acts: seq<Action>, s: State)
    requires i < |calls| && j < |calls| && i != j && Clear(calls[i]) && Clear(calls[j])
    requires SamePin(calls[i], calls[j]) && IsCreateIntentPin(calls[j].pin) && IsCreateIntentPin(calls[i].pin)
    ensures Reaches(w, acts, s) && Presents(s, calls) && ReturnedOk(s.execs[i])
    ensures s.execs[j] == Exec(calls[j], Watched(None, 0), 0, None)
    ensures forall x :: 0 <= x < |calls| && x != i && x != j ==> s.execs[x] == Exec(calls[x], Presented, 0, None)
    ensures History(s.origin, UrlOf(calls[j])) == [Rep(etag, Some(i), Some(calls[i]))]
  {
    var s1, s2;
    acts := AllPresented(w, calls);
    acts, s1 := SeesPin(w, acts, Waiting(calls), i);
    acts, s2 := SeesPin(w, acts, s1, j);
    acts, s := WritesOk(w, acts, s2, i, etag);
    assert [] + [Rep(etag, Some(i), Some(calls[i]))] == [Rep(etag, Some(i), Some(calls[i]))];
  }

  lemma ThirdThenReplay(w: World, calls: seq<Call>, i: nat, j: nat, x: nat, before: seq<Action>, s1: State, n: nat)
    returns (acts: seq<Action>, s: State)
    requires Thirds(w, calls, i, j, x) && IsCreateIntentPin(calls[j].pin) && n == |calls[x].pin|
    requires Reaches(w, before, s1) && Presents(s1, calls) && ReturnedOk(s1.execs[i])
    requires s1.execs[j] == Exec(calls[j], Watched(None, 0), 0, None) && s1.execs[x] == Exec(calls[x], Presented, 0, None)
    requires History(s1.origin, UrlOf(calls[x])) == [Rep(Tag(n), Some(i), Some(calls[i]))]
    ensures Reaches(w, acts, s) && BothOk(s, calls, i, j)
  {
    var s2;
    acts, s2 := ThirdWrites(w, calls, i, j, x, before, s1, n);
    acts, s := ReplaysOk(w, acts, s2, j, 2);
  }

  /** The third's pin comes to be, and the third writes. */
  lemma ThirdWrites(w: World, calls: seq<Call>, i: nat, j: nat, x: nat, before: seq<Action>, s1: State, n: nat)
    returns (acts: seq<Action>, s: State)
    requires Thirds(w, calls, i, j, x) && IsCreateIntentPin(calls[j].pin) && n == |calls[x].pin|
    requires Reaches(w, before, s1) && Presents(s1, calls)
    requires s1.execs[j].pc == Watched(None, 0) && s1.execs[x] == Exec(calls[x], Presented, 0, None)
    requires History(s1.origin, UrlOf(calls[x])) == [Rep(Tag(n), Some(i), Some(calls[i]))]
    ensures Reaches(w, acts, s) && Presents(s, calls) && s.execs[i] == s1.execs[i] && s.execs[j] == s1.execs[j]
    ensures ReplayOf(w, s.origin, calls[j], 2)
  {
    var s2, s3;
    acts, s2 := SomebodyWrites(w, before, s1, UrlOf(calls[x]), calls[x].pin, None);
    acts, s3 := SeesPin(w, acts, s2, x);
    acts, s := WritesOk(w, acts, s3, x, Tag(n + 1));
  }

  // ---------------------------------------------------------------- two calls and a stranger

  /** Two calls with one pin, the second a repeat of what another user agent may ask for. */
  ghost predicate Strangers(w: World, calls: seq<Call>, i: nat, j: nat, r: Call) {
    && i < |calls| && j < |calls| && i != j && Clear(calls[i]) && Clear(calls[j]) && SamePin(calls[i], calls[j])
    && w.foreign(r) && Related(w, calls[j], r)
  }

  /** The other user agent makes its change, before the pinned state or after it; the second call is answered for it. */
  lemma StrangerReturnsOk(w: World, calls: seq<Call>, i: nat, j: nat, r: Call) returns (acts: seq<Action>, s: State)
    requires Strangers(w, calls, i, j, r)
    ensures Reaches(w, acts, s) && BothOk(s, calls, i, j)
  {
    if IsCreateIntentPin(calls[j].pin) {
      acts, s := StrangerAfter(w, calls, i, j, r);
    } else {
      acts, s := StrangerBefore(w, calls, i, j, r);
    }
  }

  /** After the stranger's change and the pinned state the repeat can be answered, and a longer tag is new. */
  lemma AfterStranger(w: World, call: Call, r: Call, o: Origin)
    requires !IsCreateIntentPin(call.pin) && Related(w, call, r)
    requires History(o, UrlOf(call)) == [Rep(Tag(|call.pin|), None, Some(r)), Rep(call.pin, None, None)]
    ensures Precondition(o, call) && ReplayOf(w, o, call, 0) && FreshEtag(o, UrlOf(call), Tag(|call.pin| + 1))
  {
    assert |Tag(|call.pin| + 1)| == |call.pin| + 4 && |Tag(|call.pin|)| == |call.pin| + 3;
  }

  lemma StrangerBefore(w: World, calls: seq<Call>, i: nat, j: nat, r: Call) returns (acts: seq<Action>, s: State)
    requires Strangers(w, calls, i, j, r) && !IsCreateIntentPin(calls[j].pin)
    ensures Reaches(w, acts, s) && BothOk(s, calls, i, j)
  {
    var s1;
    acts, s1 := StrangerThenPin(w, calls, j, r);
    AfterStranger(w, calls[j], r, s1.origin);
    acts, s := PairOnPin(w, calls, i, j, 0, acts, s1, Tag(|calls[j].pin| + 1));
  }

  lemma StrangerThenPin(w: World, calls: seq<Call>, j: nat, r: Call) returns (acts: seq<Action>, s: State)
    requires j < |calls| && w.foreign(r) && Related(w, calls[j], r)
    ensures Reaches(w, acts, s) && s.execs == Waiting(calls).execs
    ensures History(s.origin, UrlOf(calls[j])) == [Rep(Tag(|calls[j].pin|), None, Some(r)), Rep(calls[j].pin, None, None)]
  {
    var s1;
    acts := AllPresented(w, calls);
    acts, s1 := SomebodyWrites(w, acts, Waiting(calls), UrlOf(calls[j]), Tag(|calls[j].pin|), Some(r));
    acts, s := SomebodyWrites(w, acts, s1, UrlOf(calls[j]), calls[j].pin, None);
  }

  lemma StrangerAfter(w: World, calls: seq<Call>, i: nat, j: nat, r: Call) returns (acts: seq<Action>, s: State)
    requires Strangers(w, calls, i, j, r) && IsCreateIntentPin(calls[j].pin)
    ensures Reaches(w, acts, s) && BothOk(s, calls, i, j)
  {
    var s1, s2;
    acts, s1 := OneCreates(w, calls, i, j, Tag(0));
    assert |Tag(0)| == 3 && |Tag(1)| == 4;
    acts, s2 := SomebodyWrites(w, acts, s1, UrlOf(calls[j]), Tag(1), Some(r));
    acts, s := ReplaysOk(w, acts, s2, j, 1);
  }

  /** The other user agent makes its change; the call observes it, is answered for it, and accuses the origin. */
  lemma StrangerAccuses(w: World, calls: seq<Call>, j: nat, r: Call) returns (acts: seq<Action>, s: State)
    requires j < |calls| && Clear(calls[j]) && !IsCreateIntentPin(calls[j].pin) && w.foreign(r) && Related(w, calls[j], r)
    ensures Reaches(w, acts, s) && Presents(s, calls) && NotHonored(s.execs[j]) && !FuturePin(s, j)
    ensures s.execs[j].wrote.None? && !AccusedRightly(s)
  {
    var etag := Tag(|calls[j].pin|);
    var s1, s2;
    acts := AllPresented(w, calls);
    acts, s1 := SomebodyWrites(w, acts, Waiting(calls), UrlOf(calls[j]), etag, Some(r));
    assert History(s1.origin, UrlOf(calls[j])) == [Rep(etag, None, Some(r))];
    acts, s2 := Observes(w, acts, s1, j, Some(etag));
    var put := Put(j, Some(Reply(200, None)), None);
    assert ReplayOf(w, s2.origin, calls[j], 0);
    acts := Extend(w, acts, s2, put);
    s := Next(w, s2, put);
  }

  // ---------------------------------------------------------------- the first condition

  /** No two of these calls share a pin with one of them a repeat of anything presented, or of a stranger's request. */
  ghost predicate NoSharedRepeat(w: World, calls: seq<Call>) {
    forall i, j :: 0 <= i < |calls| && 0 <= j < |calls| && i != j && Clear(calls[i]) && SamePin(calls[i], calls[j]) ==>
      !Repeats(w, calls, j)
  }

  ghost predicate AlwaysOnePerPin(w: World, calls: seq<Call>) {
    forall acts, s :: Run(w, acts) == Some(s) && Presents(s, calls) ==> OnePerPin(s)
  }

  lemma RepeatedIsRepeat(w: World, s: State, calls: seq<Call>, i: nat)
    requires Safe(w, s) && Presents(s, calls) && i < |calls| && Repeated(w, s, i) && Clear(calls[i])
    ensures Repeats(w, calls, i)
  {
    if !RepeatsForeign(w, calls[i]) {
      var x :| 0 <= x < |s.execs| && x != i && s.execs[x].wrote.Some? && Related(w, s.execs[i].call, s.execs[x].call);
      assert ExecOk(w, s, s.execs[x], x);
    }
  }

  lemma NoRepeatIsOnePerPin(w: World, calls: seq<Call>, acts: seq<Action>, s: State)
    requires NoSharedRepeat(w, calls) && Run(w, acts) == Some(s) && Presents(s, calls)
    ensures OnePerPin(s)
  {
    SafeRun(w, acts);
    forall i, j | 0 <= i < |s.execs| && 0 <= j < |s.execs| && i != j && ReturnedOk(s.execs[i]) && ReturnedOk(s.execs[j])
      ensures !SamePin(s.execs[i].call, s.execs[j].call)
    {
      assert ExecOk(w, s, s.execs[i], i) && ExecOk(w, s, s.execs[j], j);
      if SamePin(s.execs[i].call, s.execs[j].call) {
        AtMostOneOk(w, acts, s, i, j);
        if Repeated(w, s, i) { RepeatedIsRepeat(w, s, calls, i); } else { RepeatedIsRepeat(w, s, calls, j); }
        assert SamePin(calls[i], calls[j]) && SamePin(calls[j], calls[i]);
      }
    }
  }

  /** A shared repeat is enough: there is a run in which two calls return ok on one pin. */
  lemma SharedRepeatSpendsTwice(w: World, calls: seq<Call>, i: nat, j: nat, x: nat) returns (acts: seq<Action>, s: State)
    requires i < |calls| && j < |calls| && x < |calls| && i != j && x != j
    requires Clear(calls[i]) && Clear(calls[j]) && Clear(calls[x])
    requires SamePin(calls[i], calls[j]) && Related(w, calls[j], calls[x])
    ensures Reaches(w, acts, s) && Presents(s, calls) && !OnePerPin(s)
  {
    if SamePin(calls[x], calls[j]) {
      acts, s := TwinReturnsOk(w, calls, x, j);
      assert SamePin(s.execs[x].call, s.execs[j].call);
    } else {
      if IsCreateIntentPin(calls[j].pin) {
        acts, s := ReplayOfThird(w, calls, i, j, x);
      } else {
        acts, s := ReplayAfterThird(w, calls, i, j, x);
      }
      assert SamePin(s.execs[i].call, s.execs[j].call);
    }
  }

  /**
   * WHEN ONE PIN MEANS ONE OK. For any calls, in every run in which they are presented at most one returns ok
   * per pin, if and only if no call that shares its pin can be taken for a repeat of another one or of what
   * another user agent may ask for (calls their own arguments or canary stop do not matter).
   */
  lemma OnePerPinIff(w: World, calls: seq<Call>)
    ensures AlwaysOnePerPin(w, calls) <==> NoSharedRepeat(w, calls)
  {
    if NoSharedRepeat(w, calls) {
      forall acts, s | Run(w, acts) == Some(s) && Presents(s, calls) ensures OnePerPin(s) {
        NoRepeatIsOnePerPin(w, calls, acts, s);
      }
    } else {
      var i, j :| 0 <= i < |calls| && 0 <= j < |calls| && i != j && Clear(calls[i])
                  && SamePin(calls[i], calls[j]) && Repeats(w, calls, j);
      if RepeatsForeign(w, calls[j]) {
        var r :| w.foreign(r) && Related(w, calls[j], r);
        var acts, s := StrangerReturnsOk(w, calls, i, j, r);
        assert SamePin(s.execs[i].call, s.execs[j].call) && !OnePerPin(s);
      } else {
        var x :| 0 <= x < |calls| && x != j && Clear(calls[x]) && Related(w, calls[j], calls[x]);
        var acts, s := SharedRepeatSpendsTwice(w, calls, i, j, x);
      }
    }
  }

  /** An origin that does not replay gives one ok per pin to any calls whatever. */
  lemma NoReplayIsOnePerPin(w: World, acts: seq<Action>, s: State)
    requires (forall a, b :: !w.same(a, b)) && Run(w, acts) == Some(s)
    ensures OnePerPin(s) && AccusedRightly(s)
  {
    var calls := seq(|s.execs|, k requires 0 <= k < |s.execs| => s.execs[k].call);
    NoRepeatIsOnePerPin(w, calls, acts, s);
    NoRepeatIsAccusedRightly(w, calls, acts, s);
  }

  // ---------------------------------------------------------------- the second condition

  /** No call pinned to an ETag is a repeat of anything presented, or of a stranger's request. */
  ghost predicate NoPinnedRepeat(w: World, calls: seq<Call>) {
    forall j :: 0 <= j < |calls| && !IsCreateIntentPin(calls[j].pin) ==> !Repeats(w, calls, j)
  }

  ghost predicate AlwaysAccusedRightly(w: World, calls: seq<Call>) {
    forall acts, s :: Run(w, acts) == Some(s) && Presents(s, calls) ==> AccusedRightly(s)
  }

  lemma NoRepeatIsAccusedRightly(w: World, calls: seq<Call>, acts: seq<Action>, s: State)
    requires NoPinnedRepeat(w, calls) && Run(w, acts) == Some(s) && Presents(s, calls)
    ensures AccusedRightly(s)
  {
    SafeRun(w, acts);
    forall i | 0 <= i < |s.execs| && NotHonored(s.execs[i]) ensures FuturePin(s, i) {
      assert ExecOk(w, s, s.execs[i], i);
      NotHonoredMeansFuturePin(w, acts, s, i);
      if s.execs[i].wrote.None? { RepeatedIsRepeat(w, s, calls, i); }
    }
  }

  /**
   * A retry after the first write has been answered: it observes the new ETag, is answered with the first
   * result, and accuses the origin over a pin that is past.
   */
  lemma RetryAccuses(w: World, calls: seq<Call>, x: nat, j: nat) returns (acts: seq<Action>, s: State)
    requires x < |calls| && j < |calls| && x != j && Clear(calls[x]) && Clear(calls[j])
    requires !IsCreateIntentPin(calls[j].pin) && Related(w, calls[j], calls[x])
    ensures Reaches(w, acts, s) && Presents(s, calls) && NotHonored(s.execs[j]) && !FuturePin(s, j)
    ensures s.execs[j].wrote.None? && !AccusedRightly(s)
  {
    var etag := Tag(|calls[j].pin| + |calls[x].pin|);
    var s1, s2;
    acts, s1 := FirstWriter(w, calls, x, etag);
    acts, s2 := Observes(w, acts, s1, j, Some(etag));
    var put := Put(j, Some(Reply(200, None)), None);
    assert ReplayOf(w, s2.origin, calls[j], |WrittenFirst(calls[x], x, etag)| - 1);
    acts := Extend(w, acts, s2, put);
    s := Next(w, s2, put);
  }

  /**
   * WHEN THE ACCUSATION IS RIGHT. For any calls, in every run in which they are presented
   * IF_MATCH_NOT_HONORED is said only over a future ETag, if and only if no clear call pinned to an ETag can
   * be taken for a repeat of another clear one or of what another user agent may ask for.
   */
  lemma AccusedRightlyIff(w: World, calls: seq<Call>)
    ensures AlwaysAccusedRightly(w, calls) <==> NoPinnedRepeat(w, calls)
  {
    if NoPinnedRepeat(w, calls) {
      forall acts, s | Run(w, acts) == Some(s) && Presents(s, calls) ensures AccusedRightly(s) {
        NoRepeatIsAccusedRightly(w, calls, acts, s);
      }
    } else {
      var j :| 0 <= j < |calls| && !IsCreateIntentPin(calls[j].pin) && Repeats(w, calls, j);
      if RepeatsForeign(w, calls[j]) {
        var r :| w.foreign(r) && Related(w, calls[j], r);
        var acts, s := StrangerAccuses(w, calls, j, r);
      } else {
        var x :| 0 <= x < |calls| && x != j && Clear(calls[x]) && Related(w, calls[j], calls[x]);
        var acts, s := RetryAccuses(w, calls, x, j);
      }
    }
  }

  // ---------------------------------------------------------------- what origins take for a repeat

  /** Clear calls i and j share a pin, and x is another call than j on their URL (i or a third one). */
  predicate Contend(calls: seq<Call>, i: nat, j: nat, x: nat) {
    && i < |calls| && j < |calls| && x < |calls| && i != j && x != j
    && Clear(calls[i]) && Clear(calls[j]) && Clear(calls[x])
    && SamePin(calls[i], calls[j]) && UrlOf(calls[j]) == UrlOf(calls[x])
  }

  /** No contender stands in this relation to the other call. */
  predicate NoneContends(calls: seq<Call>, same: (Call, Call) -> bool) {
    forall i, j, x | 0 <= i < |calls| && 0 <= j < |calls| && 0 <= x < |calls| ::
      Contend(calls, i, j, x) ==> !same(calls[j], calls[x])
  }

  /** Where no call can be taken for a stranger's, only the calls themselves matter. */
  lemma ContendersDecide(w: World, calls: seq<Call>)
    requires forall j :: 0 <= j < |calls| ==> !RepeatsForeign(w, calls[j])
    ensures AlwaysOnePerPin(w, calls) <==> NoneContends(calls, w.same)
  {
    OnePerPinIff(w, calls);
    if NoSharedRepeat(w, calls) {
      forall i: nat, j: nat, x: nat | Contend(calls, i, j, x) ensures !w.same(calls[j], calls[x]) {
        assert !Repeats(w, calls, j);
        assert !Related(w, calls[j], calls[x]);
      }
    } else {
      var i, j :| 0 <= i < |calls| && 0 <= j < |calls| && i != j && Clear(calls[i])
                  && SamePin(calls[i], calls[j]) && Repeats(w, calls, j);
      var x :| 0 <= x < |calls| && x != j && Clear(calls[x]) && Related(w, calls[j], calls[x]);
      assert Contend(calls, i, j, x);
    }
  }

  /**
   * An origin with idempotency keys, where nobody else uses these grants' ids as keys, gives one ok per pin
   * exactly where no contender brings its grant twice.
   */
  lemma KeysDecide(w: World, calls: seq<Call>)
    requires forall a, b :: w.same(a, b) <==> SameKey(a, b)
    requires forall r, j :: w.foreign(r) && 0 <= j < |calls| ==> !SameKey(calls[j], r)
    ensures AlwaysOnePerPin(w, calls) <==> NoneContends(calls, SameKey)
  {
    forall j | 0 <= j < |calls| ensures !RepeatsForeign(w, calls[j]) {}
    ContendersDecide(w, calls);
  }

  /** No two clear calls share a pin. */
  predicate PinsApart(calls: seq<Call>) {
    forall i, j :: 0 <= i < |calls| && 0 <= j < |calls| && i != j && Clear(calls[i]) && Clear(calls[j]) ==>
      !SamePin(calls[i], calls[j])
  }

  /**
   * One that recognises a change already made, whoever made it, exactly where no two calls share a pin at
   * all: another user agent may ask for the change of either.
   */
  lemma ChangesDecide(w: World, calls: seq<Call>)
    requires (forall a, b :: w.same(a, b) <==> SameChange(a, b)) && forall r :: w.foreign(r)
    ensures AlwaysOnePerPin(w, calls) <==> PinsApart(calls)
  {
    OnePerPinIff(w, calls);
    forall j | 0 <= j < |calls| ensures RepeatsForeign(w, calls[j]) {
      assert w.foreign(calls[j]) && Related(w, calls[j], calls[j]);
    }
    if PinsApart(calls) {
      assert forall j :: 0 <= j < |calls| && Repeats(w, calls, j) ==> Clear(calls[j]);
    } else {
      var i, j :| 0 <= i < |calls| && 0 <= j < |calls| && i != j && Clear(calls[i]) && Clear(calls[j])
                  && SamePin(calls[i], calls[j]);
      assert Repeats(w, calls, j);
    }
  }
}
