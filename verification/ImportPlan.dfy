// What the import planner reads and what it emits.
module ImportPlan {
  import opened Text
  import opened SortedKeys

  // One tensor as the source headers list it; no weight data.
  datatype SourceTensor = SourceTensor(name: string, dtype: string, shape: seq<nat>, file: string)

  type Inventory = map<string, SourceTensor>

  // Reading an inventory files every tensor under its own name.
  predicate WellFiled(inv: Inventory) {
    forall n :: n in inv ==> inv[n].name == n
  }

  datatype Transform =
    | TransformNone
    | TransformRepackFP4
    | TransformRelabelU8
    | TransformScalarF32
    | TransformReciprocalF32
    | TransformStackExperts
    | TransformDecodeFP8
    | TransformDecodeStackFP8

  datatype TensorSpec = TensorSpec(
    name: string,
    sources: seq<SourceTensor>,
    transform: Transform,
    quantize: string,
    outDtype: string,
    outShape: Option<seq<nat>>)

  datatype BlobSpec = BlobSpec(name: string, tensors: seq<TensorSpec>, metadata: map<string, string>)

  // Decides each tensor's quantization from its name, shape and the requested type.
  type Policy = (string, seq<nat>, string) -> string

  // ---------- how often each source tensor is used ----------

  function SourceNames(sources: seq<SourceTensor>): multiset<string> {
    if sources == [] then multiset{} else multiset{sources[0].name} + SourceNames(sources[1..])
  }

  function TensorUses(tensors: seq<TensorSpec>): multiset<string> {
    if tensors == [] then multiset{} else SourceNames(tensors[0].sources) + TensorUses(tensors[1..])
  }

  // How often the whole plan reads each source tensor.
  function Uses(specs: seq<BlobSpec>): multiset<string> {
    if specs == [] then multiset{} else TensorUses(specs[0].tensors) + Uses(specs[1..])
  }

  lemma {:induction false} SourceNamesJoin(a: seq<SourceTensor>, b: seq<SourceTensor>)
    ensures SourceNames(a + b) == SourceNames(a) + SourceNames(b)
  {
    if a == [] {
      assert a + b == b;
    } else {
      assert (a + b)[1..] == a[1..] + b;
      SourceNamesJoin(a[1..], b);
    }
  }

  lemma {:induction false} TensorUsesJoin(a: seq<TensorSpec>, b: seq<TensorSpec>)
    ensures TensorUses(a + b) == TensorUses(a) + TensorUses(b)
  {
    if a == [] {
      assert a + b == b;
    } else {
      assert (a + b)[1..] == a[1..] + b;
      TensorUsesJoin(a[1..], b);
    }
  }

  lemma {:induction false} UsesJoin(a: seq<BlobSpec>, b: seq<BlobSpec>)
    ensures Uses(a + b) == Uses(a) + Uses(b)
  {
    if a == [] {
      assert a + b == b;
    } else {
      assert (a + b)[1..] == a[1..] + b;
      UsesJoin(a[1..], b);
    }
  }

  lemma UsesOne(spec: BlobSpec)
    ensures Uses([spec]) == TensorUses(spec.tensors)
  {
    assert Uses([spec][1..]) == multiset{};
  }

  lemma TensorUsesOne(ts: TensorSpec)
    ensures TensorUses([ts]) == SourceNames(ts.sources)
  {
    assert TensorUses([ts][1..]) == multiset{};
  }

  lemma SourceNamesOne(t: SourceTensor)
    ensures SourceNames([t]) == multiset{t.name}
  {
    assert SourceNames([t][1..]) == multiset{};
  }

  lemma SourceNamesTwo(a: SourceTensor, b: SourceTensor)
    ensures SourceNames([a, b]) == multiset{a.name} + multiset{b.name}
  {
    assert [a, b] == [a] + [b];
    SourceNamesJoin([a], [b]);
    SourceNamesOne(a);
    SourceNamesOne(b);
  }

  // Each name of a set once.
  lemma OnceEach(a: set<string>, b: set<string>)
    requires a !! b
    ensures multiset(a) + multiset(b) == multiset(a + b)
  {
  }

  // ---------- output names ----------

  function TensorNames(tensors: seq<TensorSpec>): seq<string> {
    if tensors == [] then [] else [tensors[0].name] + TensorNames(tensors[1..])
  }

  function OutputNames(specs: seq<BlobSpec>): seq<string> {
    if specs == [] then [] else TensorNames(specs[0].tensors) + OutputNames(specs[1..])
  }

  function BlobNames(specs: seq<BlobSpec>): seq<string> {
    if specs == [] then [] else [specs[0].name] + BlobNames(specs[1..])
  }

  lemma {:induction false} TensorNamesJoin(a: seq<TensorSpec>, b: seq<TensorSpec>)
    ensures TensorNames(a + b) == TensorNames(a) + TensorNames(b)
  {
    if a == [] {
      assert a + b == b;
    } else {
      assert (a + b)[1..] == a[1..] + b;
      TensorNamesJoin(a[1..], b);
    }
  }

  lemma {:induction false} OutputNamesJoin(a: seq<BlobSpec>, b: seq<BlobSpec>)
    ensures OutputNames(a + b) == OutputNames(a) + OutputNames(b)
  {
    if a == [] {
      assert a + b == b;
    } else {
      assert (a + b)[1..] == a[1..] + b;
      OutputNamesJoin(a[1..], b);
      Assoc(TensorNames(a[0].tensors), OutputNames(a[1..]), OutputNames(b));
    }
  }

  lemma {:induction false} BlobNamesJoin(a: seq<BlobSpec>, b: seq<BlobSpec>)
    ensures BlobNames(a + b) == BlobNames(a) + BlobNames(b)
  {
    if a == [] {
      assert a + b == b;
    } else {
      assert (a + b)[1..] == a[1..] + b;
      BlobNamesJoin(a[1..], b);
    }
  }

  // No two blobs and no two tensors, within or across blobs, share a name.
  ghost predicate NamesDistinct(specs: seq<BlobSpec>) {
    Distinct(BlobNames(specs)) && Distinct(OutputNames(specs))
  }
}
