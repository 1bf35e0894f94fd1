/** Which edits of a spec change the digested text: the fields that a rerun depends on. */
module OperatorDigest {
  import opened Options
  import opened Strings
  import opened OperatorModel
  import opened OperatorSafety
  import opened OperatorConvergence

  /** Names as users write them: separators are neither in the texts nor in the list items. */
  predicate PlainItem(s: string) { s != "" && ' ' !in s && '|' !in s }

  predicate PlainSpec(b: Spec) {
    && '|' !in b.profile && '|' !in b.target && '|' !in b.intent
    && (forall i :: 0 <= i < |b.clients| ==> PlainItem(b.clients[i]))
    && (forall i :: 0 <= i < |b.targets| ==> PlainItem(b.targets[i]))
  }

  /** The fields a rerun depends on. */
  predicate SameRun(a: Spec, b: Spec) {
    && a.profile == b.profile && a.target == b.target && a.intent == b.intent
    && a.clients == b.clients && a.targets == b.targets
    && a.mock == b.mock && a.skipValidate == b.skipValidate
  }

  lemma {:induction false} JoinSpacedIsJoin(items: seq<string>)
    ensures JoinSpaced(items) == Join(items, ' ')
  {
    if |items| > 1 { JoinSpacedIsJoin(items[1..]); }
  }

  lemma {:induction false} JoinWithout(items: seq<string>, c: char)
    requires c != ' ' && forall i :: 0 <= i < |items| ==> c !in items[i]
    ensures c !in JoinSpaced(items)
  {
    if |items| > 1 { JoinWithout(items[1..], c); }
  }

  /** A list of plain items can be read back from its text. */
  lemma ListsDiffer(xs: seq<string>, ys: seq<string>)
    requires forall i :: 0 <= i < |xs| ==> PlainItem(xs[i])
    requires forall i :: 0 <= i < |ys| ==> PlainItem(ys[i])
    ensures FormatList(xs) == FormatList(ys) ==> xs == ys
  {
    if FormatList(xs) == FormatList(ys) {
      assert FormatList(xs)[1..|FormatList(xs)| - 1] == JoinSpaced(xs);
      assert FormatList(ys)[1..|FormatList(ys)| - 1] == JoinSpaced(ys);
      JoinSpacedIsJoin(xs);
      JoinSpacedIsJoin(ys);
      if xs != [] && ys != [] {
        SplitJoin(xs, ' ');
        SplitJoin(ys, ' ');
      }
    }
  }

  function Fields(b: Spec): seq<string> {
    [b.profile, b.target, b.intent, FormatList(b.clients), FormatList(b.targets), FormatBool(b.mock),
     FormatBool(b.skipValidate)]
  }

  lemma {:induction false} JoinLast(items: seq<string>, x: string, c: char)
    requires items != []
    ensures Join(items + [x], c) == Join(items, c) + [c] + x
  {
    if |items| == 1 {
      assert (items + [x])[1..] == [x];
    } else {
      JoinLast(items[1..], x, c);
      assert (items + [x])[1..] == items[1..] + [x];
    }
  }

  /** The tail of the digested text grows at its end. */
  lemma GrowTail(front: string, tail: string, fields: seq<string>, k: nat)
    requires 0 < k < |fields| && front + tail == Join(fields[..k], '|')
    ensures front + (tail + "|" + fields[k]) == Join(fields[..k + 1], '|')
  {
    JoinLast(fields[..k], fields[k], '|');
    assert fields[..k + 1] == fields[..k] + [fields[k]];
    assert front + (tail + "|" + fields[k]) == (front + tail) + "|" + fields[k];
  }

  lemma HashInputJoins(b: Spec)
    ensures HashInput(b) == Join(Fields(b), '|')
  {
    hide FormatList, FormatBool, Join;
    var f := Fields(b);
    var front := b.profile + "|" + b.target;
    var tail2 := "|" + b.intent;
    var tail3 := tail2 + "|" + f[3];
    var tail4 := tail3 + "|" + f[4];
    var tail5 := tail4 + "|" + f[5];
    assert front + tail2 == Join(f[..3], '|') by {
      JoinThree(b.profile, b.target, b.intent);
      assert f[..3] == [b.profile, b.target, b.intent];
    }
    GrowTail(front, tail2, f, 3);
    GrowTail(front, tail3, f, 4);
    GrowTail(front, tail4, f, 5);
    GrowTail(front, tail5, f, 6);
    assert f[..7] == f;
    assert HashTail(b) == tail5 + "|" + f[6];
  }

  lemma JoinThree(x: string, y: string, z: string)
    ensures x + "|" + y + ("|" + z) == Join([x, y, z], '|')
  {
    JoinLast([x], y, '|');
    JoinLast([x, y], z, '|');
    assert [x] + [y] == [x, y] && [x, y] + [z] == [x, y, z];
    assert x + "|" + y + ("|" + z) == x + "|" + y + "|" + z;
  }

  lemma FieldsBarFree(b: Spec)
    requires PlainSpec(b)
    ensures forall i :: 0 <= i < |Fields(b)| ==> '|' !in Fields(b)[i]
  {
    JoinWithout(b.clients, '|');
    JoinWithout(b.targets, '|');
  }

  /** The digested texts of two such specs are equal exactly if profile, target, intent, clients,
      targets, mock and skipValidate are. */
  lemma DigestedTextIff(a: Spec, b: Spec)
    requires PlainSpec(a) && PlainSpec(b)
    ensures HashInput(a) == HashInput(b) <==> SameRun(a, b)
  {
    HashInputJoins(a);
    HashInputJoins(b);
    FieldsBarFree(a);
    FieldsBarFree(b);
    SplitJoin(Fields(a), '|');
    SplitJoin(Fields(b), '|');
    if HashInput(a) == HashInput(b) {
      assert Fields(a) == Fields(b);
      assert forall i :: 0 <= i < 7 ==> Fields(a)[i] == Fields(b)[i];
      ListsDiffer(a.clients, b.clients);
      ListsDiffer(a.targets, b.targets);
    }
  }

  ghost predicate Injective(d: Digest) { forall x, y :: d(x) == d(y) ==> x == y }

  /** With a digest that keeps texts apart, an edit after a completed run is answered by one Job
      from the edited spec if one of those seven fields changed, and by none otherwise. */
  lemma EditedFieldsAnsweredIff(d: Digest, c: Cluster, b: Spec, b': Spec, rounds: seq<Round>)
    requires Injective(d) && PlainSpec(b) && PlainSpec(b')
    requires Inv(d, State(c, Idle)) && Final(d, State(c, Idle), b) && CalmRounds(rounds)
    requires FromUnstructured(Some(b')).Success?
    requires Unblocked(d, EnvStep(c, EditSpec(Some(b'))), rounds) >= 2
    ensures
      var c' := Rounds(d, EnvStep(c, EditSpec(Some(b'))), rounds);
      c'.created == c.created + if SameRun(b, b') then [] else [Creation(b', c.cr.retry, false)]
  {
    DigestedTextIff(b, b');
    EditAnsweredIff(d, c, b, b', rounds);
    assert c.created + [] == c.created;
  }
}
