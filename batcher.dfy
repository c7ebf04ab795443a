/** The payload batcher `convertToDynatraceList`: one payload per event
    group, each the juxtaposition of the group's serialized messages.

    Messages are of an arbitrary type `M`; the JSON serializer (with its
    null-omission setting) is the parameter `serialize`. */
module DynatraceBatcher {

  /** The payload text for one group: every message serialized, in order,
      with no separator and no enclosing array. */
  function Concat<M>(serialize: M -> string, group: seq<M>): string
  {
    if group == [] then "" else serialize(group[0]) + Concat(serialize, group[1..])
  }

  /** The sum of the lengths of the group's serialized messages. */
  function SerializedLength<M>(serialize: M -> string, group: seq<M>): nat
  {
    if group == [] then 0 else |serialize(group[0])| + SerializedLength(serialize, group[1..])
  }

  /** The payloads the batcher yields for a sequence of groups, in order. */
  function Payloads<M>(serialize: M -> string, groups: seq<seq<M>>): seq<string>
  {
    if groups == [] then [] else [Concat(serialize, groups[0])] + Payloads(serialize, groups[1..])
  }

  /** Appending one more message to the buffer extends the payload by
      exactly that message's text. */
  lemma {:induction false} ConcatSnoc<M>(serialize: M -> string, group: seq<M>, m: M)
    ensures Concat(serialize, group + [m]) == Concat(serialize, group) + serialize(m)
  {
    if group == [] {
      assert [] + [m] == [m];
      assert [m][1..] == [];
    } else {
      assert (group + [m])[0] == group[0];
      assert (group + [m])[1..] == group[1..] + [m];
      ConcatSnoc(serialize, group[1..], m);
    }
  }

  /** Serializing a group split in two gives the two halves' texts side by
      side: nothing is inserted between messages. */
  lemma {:induction false} ConcatAppend<M>(serialize: M -> string, g1: seq<M>, g2: seq<M>)
    ensures Concat(serialize, g1 + g2) == Concat(serialize, g1) + Concat(serialize, g2)
  {
    if g1 == [] {
      assert g1 + g2 == g2;
    } else {
      assert (g1 + g2)[0] == g1[0];
      assert (g1 + g2)[1..] == g1[1..] + g2;
      ConcatAppend(serialize, g1[1..], g2);
    }
  }

  /** The payload is never truncated: its length is the total length of the
      serialized messages. */
  lemma {:induction false} ConcatLength<M>(serialize: M -> string, group: seq<M>)
    ensures |Concat(serialize, group)| == SerializedLength(serialize, group)
  {
    if group != [] {
      ConcatLength(serialize, group[1..]);
    }
  }

  /** Message `i` of the group appears verbatim in the payload, right after
      the text of messages `0..i`: order is preserved. */
  lemma MessageAt<M>(serialize: M -> string, group: seq<M>, i: nat)
    requires i < |group|
    ensures SerializedLength(serialize, group[..i]) + |serialize(group[i])| <= |Concat(serialize, group)|
    ensures Concat(serialize, group)[SerializedLength(serialize, group[..i])
                                     .. SerializedLength(serialize, group[..i]) + |serialize(group[i])|]
            == serialize(group[i])
  {
    var before, rest := group[..i], group[i + 1..];
    assert group == before + [group[i]] + rest;
    ConcatAppend(serialize, before + [group[i]], rest);
    ConcatSnoc(serialize, before, group[i]);
    ConcatLength(serialize, before);
  }

  /** The batcher yields exactly one payload per group, in input order. */
  lemma {:induction false} PayloadsAt<M>(serialize: M -> string, groups: seq<seq<M>>)
    ensures |Payloads(serialize, groups)| == |groups|
    ensures forall i :: 0 <= i < |groups| ==> Payloads(serialize, groups)[i] == Concat(serialize, groups[i])
  {
    if groups != [] {
      PayloadsAt(serialize, groups[1..]);
      assert forall i :: 1 <= i < |groups| ==> groups[1..][i - 1] == groups[i];
    }
  }

  /** The body of the iterator for one group: a fresh buffer, pre-sized to
      `maxTransmissionSize`, receives every serialized message in turn.
      The capacity is only a hint and never limits or splits the text. */
  method BatchGroup<M>(serialize: M -> string, group: seq<M>, maxTransmissionSize: nat)
    returns (payload: string)
    ensures payload == Concat(serialize, group)
    ensures |payload| == SerializedLength(serialize, group)
  {
    var outgoingJson: string := "";
    for i := 0 to |group|
      invariant outgoingJson == Concat(serialize, group[..i])
    {
      var messageAsString := serialize(group[i]);
      assert group[..i + 1] == group[..i] + [group[i]];
      ConcatSnoc(serialize, group[..i], group[i]);
      outgoingJson := outgoingJson + messageAsString;
    }
    assert group[..|group|] == group;
    ConcatLength(serialize, group);
    payload := outgoingJson;
  }

  /** The whole sequence the iterator yields: one payload per group, in
      order, each the exact concatenation of its group; an empty group
      yields the empty string. */
  method ConvertToDynatraceList<M>(serialize: M -> string, groups: seq<seq<M>>, maxTransmissionSize: nat)
    returns (payloads: seq<string>)
    ensures |payloads| == |groups|
    ensures forall i :: 0 <= i < |groups| ==> payloads[i] == Concat(serialize, groups[i])
    ensures forall i :: 0 <= i < |groups| && groups[i] == [] ==> payloads[i] == ""
    ensures payloads == Payloads(serialize, groups)
  {
    payloads := [];
    for k := 0 to |groups|
      invariant |payloads| == k
      invariant forall i :: 0 <= i < k ==> payloads[i] == Concat(serialize, groups[i])
    {
      var outgoingJson := BatchGroup(serialize, groups[k], maxTransmissionSize);
      payloads := payloads + [outgoingJson];
    }
    PayloadsAt(serialize, groups);
  }
}
