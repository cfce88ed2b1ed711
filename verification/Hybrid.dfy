// The hybrid provider: a router that sends one client's input to two children, and a merge of what
// they say.
module Hybrid {
  import Protocol

  type Id = Protocol.Id
  type Option<+T> = Protocol.Option<T>

  type Prompt = string

  datatype Input =
    | AudioFrame(mediaTimeUs: nat, frame: seq<nat>)
    | CommitResponse(generation: Id, version: nat, timeUs: nat, prompt: Prompt)
    | CancelGeneration(canceled: Id)
    | Close

  datatype Child = Fast | Deep

  datatype Delivery = Delivery(child: Child, input: Input)

  // ---------- the router ----------

  // `needsDeep` is the judgement on a prompt, unknown here.
  function UsesDeep(input: Input, hasDeep: bool, needsDeep: Prompt -> bool): bool {
    input.CommitResponse? && hasDeep && needsDeep(input.prompt)
  }

  function Both(input: Input, hasDeep: bool): seq<Delivery> {
    [Delivery(Fast, input)] + if hasDeep then [Delivery(Deep, input)] else []
  }

  function Routed(input: Input, hasDeep: bool, needsDeep: Prompt -> bool): seq<Delivery> {
    if !input.CommitResponse? then Both(input, hasDeep)
    else if UsesDeep(input, hasDeep, needsDeep)
    then [Delivery(Fast, CancelGeneration(input.generation)), Delivery(Deep, input)]
    else (if hasDeep then [Delivery(Deep, CancelGeneration(input.generation))] else []) + [Delivery(Fast, input)]
  }

  // The inputs the router reads: up to and including the first Close.
  function Processed(inputs: seq<Input>): seq<Input> {
    if inputs == [] then []
    else if inputs[0] == Close then [Close]
    else [inputs[0]] + Processed(inputs[1..])
  }

  function RoutedAll(inputs: seq<Input>, hasDeep: bool, needsDeep: Prompt -> bool): seq<Delivery> {
    if inputs == [] then []
    else RoutedAll(inputs[..|inputs| - 1], hasDeep, needsDeep) + Routed(inputs[|inputs| - 1], hasDeep, needsDeep)
  }

  lemma {:induction false} ProcessedPrefix(inputs: seq<Input>, n: nat)
    requires n <= |inputs| && forall i :: 0 <= i < n ==> inputs[i] != Close
    ensures n == |inputs| ==> Processed(inputs) == inputs
    ensures n < |inputs| && inputs[n] == Close ==> Processed(inputs) == inputs[..n + 1]
  {
    if n > 0 {
      ProcessedPrefix(inputs[1..], n - 1);
      assert inputs == [inputs[0]] + inputs[1..];
      if n < |inputs| && inputs[n] == Close {
        assert inputs[..n + 1] == [inputs[0]] + inputs[1..][..n];
      }
    }
  }

  lemma RoutedOneMore(inputs: seq<Input>, i: nat, hasDeep: bool, needsDeep: Prompt -> bool)
    requires i < |inputs|
    ensures RoutedAll(inputs[..i + 1], hasDeep, needsDeep) ==
            RoutedAll(inputs[..i], hasDeep, needsDeep) + Routed(inputs[i], hasDeep, needsDeep)
  {
    assert inputs[..i + 1][..i] == inputs[..i];
  }

  // One input, sent on in the order the router awaits its sends.
  method Dispatch(sent: seq<Delivery>, input: Input, hasDeep: bool,
                  needsDeep: Prompt -> bool) returns (after: seq<Delivery>)
    ensures after == sent + Routed(input, hasDeep, needsDeep)
  {
    after := sent;
    match input {
      case AudioFrame(_, _) =>
        after := after + [Delivery(Fast, input)];
        if hasDeep {
          after := after + [Delivery(Deep, input)];
        }
      case CommitResponse(generation, _, _, prompt) =>
        var useDeep := hasDeep && needsDeep(prompt);
        if useDeep {
          after := after + [Delivery(Fast, CancelGeneration(generation))];
          after := after + [Delivery(Deep, input)];
        } else {
          if hasDeep {
            after := after + [Delivery(Deep, CancelGeneration(generation))];
          }
          after := after + [Delivery(Fast, input)];
        }
      case CancelGeneration(generation) =>
        after := after + [Delivery(Fast, CancelGeneration(generation))];
        if hasDeep {
          after := after + [Delivery(Deep, CancelGeneration(generation))];
        }
      case Close =>
        after := after + [Delivery(Fast, Close)];
        if hasDeep {
          after := after + [Delivery(Deep, Close)];
        }
    }
  }

  method Route(inputs: seq<Input>, hasDeep: bool, needsDeep: Prompt -> bool) returns (sent: seq<Delivery>)
    ensures sent == RoutedAll(Processed(inputs), hasDeep, needsDeep)
  {
    assert RoutedAll(inputs[..0], hasDeep, needsDeep) == [];
    hide RoutedAll, Routed, Processed;
    sent := [];
    var i := 0;
    while i < |inputs|
      invariant i <= |inputs| && forall k :: 0 <= k < i ==> inputs[k] != Close
      invariant sent == RoutedAll(inputs[..i], hasDeep, needsDeep)
    {
      RoutedOneMore(inputs, i, hasDeep, needsDeep);
      sent := Dispatch(sent, inputs[i], hasDeep, needsDeep);
      if inputs[i] == Close {
        ProcessedPrefix(inputs, i);
        return;
      }
      i := i + 1;
    }
    ProcessedPrefix(inputs, |inputs|);
    assert inputs[..|inputs|] == inputs;
  }

  // ---------- what each child sees ----------

  function SeenBy(child: Child, sent: seq<Delivery>): seq<Input> {
    if sent == [] then []
    else
      var last := sent[|sent| - 1];
      SeenBy(child, sent[..|sent| - 1]) + if last.child == child then [last.input] else []
  }

  // A child is given an input as it is, or for a commit that goes to the other child the
  // cancellation of its generation.
  function Given(child: Child, input: Input, hasDeep: bool, needsDeep: Prompt -> bool): Input {
    if input.CommitResponse? && (child == Deep) != UsesDeep(input, hasDeep, needsDeep)
    then CancelGeneration(input.generation) else input
  }

  lemma {:induction false} SeenConcat(child: Child, a: seq<Delivery>, b: seq<Delivery>)
    ensures SeenBy(child, a + b) == SeenBy(child, a) + SeenBy(child, b)
  {
    if b == [] {
      assert a + b == a;
    } else {
      SeenConcat(child, a, b[..|b| - 1]);
      assert (a + b)[..|a + b| - 1] == a + b[..|b| - 1];
    }
  }

  lemma SeenOfOne(child: Child, input: Input, hasDeep: bool, needsDeep: Prompt -> bool)
    requires child == Fast || hasDeep
    ensures SeenBy(child, Routed(input, hasDeep, needsDeep)) == [Given(child, input, hasDeep, needsDeep)]
  {
    hide SeenBy;
    var sent := Routed(input, hasDeep, needsDeep);
    if |sent| == 2 {
      SeenPair(child, sent[0], sent[1]);
      assert sent == [sent[0], sent[1]];
    } else {
      SeenSingle(child, sent[0]);
      assert sent == [sent[0]];
    }
  }

  lemma SeenPair(child: Child, d: Delivery, e: Delivery)
    ensures SeenBy(child, [d, e]) == (if d.child == child then [d.input] else []) +
            (if e.child == child then [e.input] else [])
  {
    SeenConcat(child, [d], [e]);
    SeenSingle(child, d);
    SeenSingle(child, e);
    assert [d, e] == [d] + [e];
  }

  lemma SeenSingle(child: Child, d: Delivery)
    ensures SeenBy(child, [d]) == if d.child == child then [d.input] else []
  {
    assert [d][..0] == [];
  }

  lemma NothingRouted(child: Child, hasDeep: bool, needsDeep: Prompt -> bool)
    ensures SeenBy(child, RoutedAll([], hasDeep, needsDeep)) == []
  {
  }

  // Each child's input is the client's, position by position and in order, with commits meant for
  // the other child turned into cancellations.
  lemma {:induction false} ChildSeesProjection(child: Child, inputs: seq<Input>, hasDeep: bool,
                                               needsDeep: Prompt -> bool)
    requires child == Fast || hasDeep
    ensures var seen := SeenBy(child, RoutedAll(inputs, hasDeep, needsDeep));
            |seen| == |inputs| && forall i :: 0 <= i < |inputs| ==>
              seen[i] == Given(child, inputs[i], hasDeep, needsDeep)
  {
    if inputs != [] {
      var front, last := inputs[..|inputs| - 1], inputs[|inputs| - 1];
      hide Given, Routed, SeenBy, RoutedAll;
      RoutedOneMore(inputs, |inputs| - 1, hasDeep, needsDeep);
      assert inputs[..|inputs|] == inputs;
      ChildSeesProjection(child, front, hasDeep, needsDeep);
      SeenOfOne(child, last, hasDeep, needsDeep);
      SeenConcat(child, RoutedAll(front, hasDeep, needsDeep), Routed(last, hasDeep, needsDeep));
    } else {
      NothingRouted(child, hasDeep, needsDeep);
    }
  }

  lemma {:induction false} NoDeepSeesNothing(inputs: seq<Input>, needsDeep: Prompt -> bool)
    ensures SeenBy(Deep, RoutedAll(inputs, false, needsDeep)) == []
  {
    if inputs != [] {
      var front, last := inputs[..|inputs| - 1], inputs[|inputs| - 1];
      NoDeepSeesNothing(front, needsDeep);
      SeenConcat(Deep, RoutedAll(front, false, needsDeep), Routed(last, false, needsDeep));
      SeenSingle(Deep, Routed(last, false, needsDeep)[0]);
      assert Routed(last, false, needsDeep) == [Routed(last, false, needsDeep)[0]];
    }
  }

  // With a deep child, every commit the router reads reaches exactly one child, chosen by the
  // judgement on its prompt, and at the same place the other child is told to cancel that
  // generation. Without one the fast child gets every commit.
  lemma CommitReachesOne(inputs: seq<Input>, hasDeep: bool, needsDeep: Prompt -> bool, i: nat)
    requires i < |Processed(inputs)| && Processed(inputs)[i].CommitResponse?
    ensures var commit := Processed(inputs)[i];
            var sent := RoutedAll(Processed(inputs), hasDeep, needsDeep);
            var fast, deep := SeenBy(Fast, sent), SeenBy(Deep, sent);
            if !hasDeep then |fast| > i && fast[i] == commit && deep == []
            else
              && |fast| == |deep| == |Processed(inputs)|
              && (if needsDeep(commit.prompt)
                  then deep[i] == commit && fast[i] == CancelGeneration(commit.generation)
                  else fast[i] == commit && deep[i] == CancelGeneration(commit.generation))
  {
    ChildSeesProjection(Fast, Processed(inputs), hasDeep, needsDeep);
    if hasDeep {
      ChildSeesProjection(Deep, Processed(inputs), hasDeep, needsDeep);
    } else {
      NoDeepSeesNothing(Processed(inputs), needsDeep);
    }
  }

  // ---------- the merge ----------

  // `tags[k]` says which child emission k came from.
  function From<T>(child: Child, out: seq<T>, tags: seq<Child>): seq<T>
    requires |out| == |tags|
  {
    if out == [] then []
    else
      var n := |out| - 1;
      From(child, out[..n], tags[..n]) + if tags[n] == child then [out[n]] else []
  }

  lemma FromMore<T>(out: seq<T>, tags: seq<Child>, x: T, tag: Child)
    requires |out| == |tags|
    ensures From(Fast, out + [x], tags + [tag]) == From(Fast, out, tags) + if tag == Fast then [x] else []
    ensures From(Deep, out + [x], tags + [tag]) == From(Deep, out, tags) + if tag == Deep then [x] else []
  {
    assert (out + [x])[..|out|] == out && (tags + [tag])[..|out|] == tags;
  }

  // `fast` and `deep` are all that each child will ever emit before it closes. Which child is ready
  // first is up to `fastFirst`, step by step; the receiver goes away after taking `room` emissions,
  // if at all. Whatever they are, the output interleaves the children without losing, repeating or
  // reordering anything, and stops short only when the receiver is gone.
  method Merge<T>(fast: seq<T>, deep: Option<seq<T>>, fastFirst: nat -> bool, room: Option<nat>)
    returns (out: seq<T>, ghost tags: seq<Child>, gone: bool)
    ensures |tags| == |out|
    ensures From(Fast, out, tags) <= fast
    ensures From(Deep, out, tags) <= if deep.Some? then deep.value else []
    ensures !gone ==> From(Fast, out, tags) == fast && From(Deep, out, tags) == if deep.Some? then deep.value else []
    ensures gone ==> room.Some? && |out| == room.value
    ensures room.None? ==> !gone
  {
    out, tags, gone := [], [], false;
    var fastDone := false;
    var deepDone := deep.None?;
    var i, j, step := 0, 0, 0;
    ghost var all := if deep.Some? then deep.value else [];
    while !fastDone || !deepDone
      invariant i <= |fast| && j <= |all| && |tags| == |out|
      invariant From(Fast, out, tags) == fast[..i] && From(Deep, out, tags) == all[..j]
      invariant fastDone ==> i == |fast|
      invariant deepDone ==> j == |all|
      invariant deep.None? ==> deepDone
      invariant room.Some? ==> |out| <= room.value
      decreases (|fast| - i) + (|all| - j), (if fastDone then 0 else 1) + (if deepDone then 0 else 1)
    {
      var takeFast := !fastDone && (deepDone || fastFirst(step));
      step := step + 1;
      if takeFast {
        if i == |fast| {
          fastDone := true;
        } else {
          if room.Some? && |out| == room.value {
            return out, tags, true;
          }
          FromMore(out, tags, fast[i], Fast);
          out, tags := out + [fast[i]], tags + [Fast];
          i := i + 1;
        }
      } else if j == |deep.value| {
        deepDone := true;
      } else {
        if room.Some? && |out| == room.value {
          return out, tags, true;
        }
        FromMore(out, tags, deep.value[j], Deep);
        out, tags := out + [deep.value[j]], tags + [Deep];
        j := j + 1;
      }
    }
    assert fast[..|fast|] == fast && all[..|all|] == all;
  }
}
