/**
  What the comparison of pod specs (controllers/horreum_controller.go:442-458)
  says about the fields of two specs: which edits of a resource are noticed on a
  live pod, and which are not.
 */
module PodSpecs {
  import opened Wrappers
  import opened Trees
  import opened Resources
  import opened Matching

  /* Three ways to read one spec beside another, field by field. */
  datatype Reading =
    | AsIs       // what the one sets has the same value in the other
    | Admitted   // the same, but admission may have filled in what the other leaves unset
    | Coverage   // what the one sets is set in the other, to whatever value

  // Field by field

  predicate TextFits(r: Reading, a: string, b: string) {
    || a == ""
    || match r
       case AsIs => a == b
       case Admitted => a == b || b == ""
       case Coverage => b != ""
  }

  predicate NumberFits(r: Reading, a: Option<int>, b: Option<int>) {
    || a == None
    || match r
       case AsIs => a == b
       case Admitted => a == b || b == None
       case Coverage => b != None
  }

  function ValueOf(e: EnvVar): string {
    match e
    case Value(_, value) => value
    case FromSecret(_, _, _) => ""
  }

  predicate EnvFits(r: Reading, a: EnvVar, b: EnvVar) {
    && TextFits(r, a.name, b.name)
    && match a
       case Value(_, value) => TextFits(r, value, ValueOf(b))
       case FromSecret(_, secret, key) =>
         if b.FromSecret? then TextFits(r, secret, b.secret) && TextFits(r, key, b.key) else r.Admitted?
  }

  predicate MountFits(r: Reading, a: Mount, b: Mount) {
    TextFits(r, a.volume, b.volume) && TextFits(r, a.path, b.path) && TextFits(r, a.subPath, b.subPath)
  }

  predicate SourceFits(r: Reading, a: Source, b: Source) {
    match (a, b)
    case (EmptyDir, EmptyDir) => true
    case (ConfigMapSource(x), ConfigMapSource(y)) => TextFits(r, x, y)
    case (SecretSource(x), SecretSource(y)) => TextFits(r, x, y)
    case (Claim(x), Claim(y)) => TextFits(r, x, y)
    case _ => r.Admitted?
  }

  predicate VolumeFits(r: Reading, a: Volume, b: Volume) {
    TextFits(r, a.name, b.name) && SourceFits(r, a.source, b.source)
  }

  /* Admission may have appended to a list. */
  predicate LongEnough(r: Reading, n: nat, m: nat) {
    r.Admitted? || n <= m
  }

  predicate ContainerFits(r: Reading, a: Container, b: Container) {
    && TextFits(r, a.name, b.name) && TextFits(r, a.image, b.image) && NumberFits(r, a.runAsUser, b.runAsUser)
    && LongEnough(r, |a.env|, |b.env|)
    && (forall i | 0 <= i < |a.env| && i < |b.env| :: EnvFits(r, a.env[i], b.env[i]))
    && LongEnough(r, |a.ports|, |b.ports|)
    && (forall i | 0 <= i < |a.ports| && i < |b.ports| :: a.ports[i] == b.ports[i] || r.Coverage?)
    && LongEnough(r, |a.mounts|, |b.mounts|)
    && (forall i | 0 <= i < |a.mounts| && i < |b.mounts| :: MountFits(r, a.mounts[i], b.mounts[i]))
  }

  predicate ContainersFit(r: Reading, a: seq<Container>, b: seq<Container>) {
    LongEnough(r, |a|, |b|) && forall i | 0 <= i < |a| && i < |b| :: ContainerFits(r, a[i], b[i])
  }

  predicate VolumesFit(r: Reading, a: seq<Volume>, b: seq<Volume>) {
    LongEnough(r, |a|, |b|) && forall i | 0 <= i < |a| && i < |b| :: VolumeFits(r, a[i], b[i])
  }

  /* All fields of a spec, and all elements of its lists position by position. */
  predicate SpecFits(r: Reading, a: PodSpec, b: PodSpec) {
    && NumberFits(r, a.grace, b.grace) && NumberFits(r, a.fsGroup, b.fsGroup)
    && ContainersFit(r, a.initContainers, b.initContainers) && ContainersFit(r, a.containers, b.containers)
    && VolumesFit(r, a.volumes, b.volumes)
  }

  // Tree by tree

  predicate Related(r: Reading, a: Tree, b: Tree) {
    match r
    case AsIs => Derives(a, b)
    case Admitted => Agree(a, b)
    case Coverage => Within(a, b)
  }

  lemma StructRelated(r: Reading, xs: seq<Tree>, ys: seq<Tree>)
    requires |xs| == |ys|
    ensures Related(r, Struct(xs), Struct(ys)) <==> forall i | 0 <= i < |xs| :: Related(r, xs[i], ys[i])
  {
    if r.Admitted? && xs == ys {
      forall i | 0 <= i < |xs| ensures Agree(xs[i], ys[i]) { AgreeReflexive(xs[i]); }
    }
  }

  lemma SliceRelated(r: Reading, xs: seq<Tree>, ys: seq<Tree>)
    ensures Related(r, Slice(xs), Slice(ys)) <==>
      LongEnough(r, |xs|, |ys|) && forall i | 0 <= i < |xs| && i < |ys| :: Related(r, xs[i], ys[i])
  {
    if r.Admitted? && xs == ys {
      forall i | 0 <= i < |xs| ensures Agree(xs[i], ys[i]) { AgreeReflexive(xs[i]); }
    }
  }

  predicate Field(r: Reading, xs: seq<Tree>, ys: seq<Tree>, i: nat)
    requires i < |xs| == |ys|
  {
    Related(r, xs[i], ys[i])
  }

  /* The same for structs with a few fields. */
  lemma FieldsRelated(r: Reading, xs: seq<Tree>, ys: seq<Tree>)
    requires |xs| == |ys|
    ensures var all := Related(r, Struct(xs), Struct(ys));
      && (|xs| == 1 ==> all == Field(r, xs, ys, 0))
      && (|xs| == 2 ==> all == (Field(r, xs, ys, 0) && Field(r, xs, ys, 1)))
      && (|xs| == 3 ==> all == (Field(r, xs, ys, 0) && Field(r, xs, ys, 1) && Field(r, xs, ys, 2)))
      && (|xs| == 4 ==>
            all == (Field(r, xs, ys, 0) && Field(r, xs, ys, 1) && Field(r, xs, ys, 2) && Field(r, xs, ys, 3)))
      && (|xs| == 5 ==>
            all == (Field(r, xs, ys, 0) && Field(r, xs, ys, 1) && Field(r, xs, ys, 2) && Field(r, xs, ys, 3) &&
                    Field(r, xs, ys, 4)))
      && (|xs| == 6 ==>
            all == (Field(r, xs, ys, 0) && Field(r, xs, ys, 1) && Field(r, xs, ys, 2) && Field(r, xs, ys, 3) &&
                    Field(r, xs, ys, 4) && Field(r, xs, ys, 5)))
  {
    hide Related;
    StructRelated(r, xs, ys);
  }

  lemma TextRelated(r: Reading, x: string, y: string)
    ensures Related(r, Text(x), Text(y)) == TextFits(r, x, y)
  {
  }

  lemma UnsetText(r: Reading)
    ensures forall y: string :: TextFits(r, "", y)
  {
  }

  lemma NumberRelated(r: Reading, x: int, y: int)
    ensures Related(r, Number(x), Number(y)) <==> x == y || r.Coverage?
  {
  }

  lemma UnsetRelated(r: Reading)
    ensures forall x: Tree :: Related(r, Unset, x)
    ensures forall xs: seq<Tree> :: Related(r, Struct(xs), Unset) == r.Admitted?
    ensures Related(r, Flag(false), Flag(false)) && Related(r, Struct([]), Struct([]))
  {
  }

  lemma OptionRelated(r: Reading, a: Option<int>, b: Option<int>)
    ensures Related(r, EncodeOption(a), EncodeOption(b)) == NumberFits(r, a, b)
  {
  }

  lemma EnvRelated(r: Reading, a: EnvVar, b: EnvVar)
    ensures Related(r, EncodeEnv(a), EncodeEnv(b)) == EnvFits(r, a, b)
  {
    hide Related, TextFits;
    var xs, ys := EncodeEnv(a).fields, EncodeEnv(b).fields;
    FieldsRelated(r, xs, ys);
    TextRelated(r, a.name, b.name);
    TextRelated(r, ValueOf(a), ValueOf(b));
    UnsetRelated(r);
    if a.FromSecret? && b.FromSecret? {
      FieldsRelated(r, xs[2].fields, ys[2].fields);
      TextRelated(r, a.secret, b.secret);
      TextRelated(r, a.key, b.key);
    }
    UnsetText(r);
  }

  lemma MountRelated(r: Reading, a: Mount, b: Mount)
    ensures Related(r, EncodeMount(a), EncodeMount(b)) == MountFits(r, a, b)
  {
    hide Related, TextFits;
    FieldsRelated(r, EncodeMount(a).fields, EncodeMount(b).fields);
    TextRelated(r, a.volume, b.volume);
    TextRelated(r, a.path, b.path);
    TextRelated(r, a.subPath, b.subPath);
  }

  function NameOf(s: Source): string {
    match s
    case EmptyDir => ""
    case ConfigMapSource(name) => name
    case SecretSource(name) => name
    case Claim(name) => name
  }

  lemma SourceRelated(r: Reading, a: Source, b: Source)
    ensures Related(r, EncodeSource(a), EncodeSource(b)) == SourceFits(r, a, b)
  {
    hide Related, TextFits;
    FieldsRelated(r, EncodeSource(a).fields, EncodeSource(b).fields);
    FieldsRelated(r, [Text(NameOf(a))], [Text(NameOf(b))]);
    TextRelated(r, NameOf(a), NameOf(b));
    UnsetRelated(r);
  }

  lemma VolumeRelated(r: Reading, a: Volume, b: Volume)
    ensures Related(r, EncodeVolume(a), EncodeVolume(b)) == VolumeFits(r, a, b)
  {
    hide Related, TextFits, EncodeSource, SourceFits;
    FieldsRelated(r, EncodeVolume(a).fields, EncodeVolume(b).fields);
    TextRelated(r, a.name, b.name);
    SourceRelated(r, a.source, b.source);
  }

  lemma ContainerRelated(r: Reading, a: Container, b: Container)
    ensures Related(r, EncodeContainer(a), EncodeContainer(b)) == ContainerFits(r, a, b)
  {
    hide Related, TextFits, NumberFits, EncodeOption, EncodeEnv, EnvFits, EncodeMount, MountFits;
    var xs, ys := EncodeContainer(a).fields, EncodeContainer(b).fields;
    FieldsRelated(r, xs, ys);
    TextRelated(r, a.name, b.name);
    TextRelated(r, a.image, b.image);
    OptionRelated(r, a.runAsUser, b.runAsUser);
    SliceRelated(r, xs[2].items, ys[2].items);
    forall i | 0 <= i < |a.env| && i < |b.env|
      ensures Related(r, xs[2].items[i], ys[2].items[i]) == EnvFits(r, a.env[i], b.env[i])
    {
      EnvRelated(r, a.env[i], b.env[i]);
    }
    SliceRelated(r, xs[3].items, ys[3].items);
    forall i | 0 <= i < |a.ports| && i < |b.ports|
      ensures Related(r, xs[3].items[i], ys[3].items[i]) <==> a.ports[i] == b.ports[i] || r.Coverage?
    {
      NumberRelated(r, a.ports[i], b.ports[i]);
    }
    SliceRelated(r, xs[5].items, ys[5].items);
    forall i | 0 <= i < |a.mounts| && i < |b.mounts|
      ensures Related(r, xs[5].items[i], ys[5].items[i]) == MountFits(r, a.mounts[i], b.mounts[i])
    {
      MountRelated(r, a.mounts[i], b.mounts[i]);
    }
  }

  lemma ContainersRelated(r: Reading, a: seq<Container>, b: seq<Container>, xs: seq<Tree>, ys: seq<Tree>)
    requires |xs| == |a| && forall i | 0 <= i < |a| :: xs[i] == EncodeContainer(a[i])
    requires |ys| == |b| && forall i | 0 <= i < |b| :: ys[i] == EncodeContainer(b[i])
    ensures Related(r, Slice(xs), Slice(ys)) == ContainersFit(r, a, b)
  {
    hide Related, EncodeContainer, ContainerFits;
    SliceRelated(r, xs, ys);
    forall i | 0 <= i < |a| && i < |b| ensures Related(r, xs[i], ys[i]) == ContainerFits(r, a[i], b[i]) {
      ContainerRelated(r, a[i], b[i]);
    }
  }

  lemma VolumesRelated(r: Reading, a: seq<Volume>, b: seq<Volume>, xs: seq<Tree>, ys: seq<Tree>)
    requires |xs| == |a| && forall i | 0 <= i < |a| :: xs[i] == EncodeVolume(a[i])
    requires |ys| == |b| && forall i | 0 <= i < |b| :: ys[i] == EncodeVolume(b[i])
    ensures Related(r, Slice(xs), Slice(ys)) == VolumesFit(r, a, b)
  {
    hide Related, EncodeVolume, VolumeFits;
    SliceRelated(r, xs, ys);
    forall i | 0 <= i < |a| && i < |b| ensures Related(r, xs[i], ys[i]) == VolumeFits(r, a[i], b[i]) {
      VolumeRelated(r, a[i], b[i]);
    }
  }

  lemma SpecRelated(r: Reading, a: PodSpec, b: PodSpec)
    ensures Related(r, Encode(a), Encode(b)) == SpecFits(r, a, b)
  {
    hide Related, EncodeContainer, EncodeVolume, EncodeOption, NumberFits, ContainersFit, VolumesFit;
    var xs, ys := Encode(a).fields, Encode(b).fields;
    FieldsRelated(r, xs, ys);
    OptionRelated(r, a.grace, b.grace);
    OptionRelated(r, a.fsGroup, b.fsGroup);
    ContainersRelated(r, a.initContainers, b.initContainers, xs[2].items, ys[2].items);
    ContainersRelated(r, a.containers, b.containers, xs[3].items, ys[3].items);
    VolumesRelated(r, a.volumes, b.volumes, xs[4].items, ys[4].items);
  }

  // What comparePods decides

  /* A live pod that was made from a spec, and admitted in whatever way. */
  predicate MadeFrom(b: PodSpec, have: Obj) {
    have.Pod? && Derives(Encode(b), have.spec)
  }

  function PodOf(spec: Tree): Obj {
    Pod(Owner("", ""), map[], spec, PodStatus([], []))
  }

  /** A wanted pod matches every live pod made from another spec, whatever
      admission did, if and only if every field that it sets has the same value in
      that spec, in lists position by position: only trailing elements of the
      other spec's lists, and fields that are not wanted, make no difference. */
  lemma KeptWhateverAdmissionIff(want: Manifest, b: PodSpec)
    requires want.PodM?
    ensures (forall have: Obj | MadeFrom(b, have) :: Matches(SamePod, want, have)) <==> SpecFits(AsIs, want.spec, b)
  {
    hide Encode, SpecFits, Derives;
    SpecRelated(AsIs, want.spec, b);
    DerivesReflexive(Encode(b));
    assert MadeFrom(b, PodOf(Encode(b)));
    if SpecFits(AsIs, want.spec, b) {
      forall have: Obj | MadeFrom(b, have) ensures Matches(SamePod, want, have) {
        DerivesTransitive(Encode(want.spec), Encode(b), have.spec);
      }
    }
  }

  /** It matches some such live pod if and only if every field that both specs
      set has the same value in both, in lists as far as both go. */
  lemma KeptForSomeAdmissionIff(want: Manifest, b: PodSpec)
    requires want.PodM?
    ensures (exists have: Obj :: MadeFrom(b, have) && Matches(SamePod, want, have)) <==>
      SpecFits(Admitted, want.spec, b)
  {
    hide Encode, SpecFits, Derives, Merge;
    SpecRelated(Admitted, want.spec, b);
    if SpecFits(Admitted, want.spec, b) {
      var live := Merge(Encode(want.spec), Encode(b));
      MergeMatchesBoth(Encode(want.spec), Encode(b));
      assert MadeFrom(b, PodOf(live)) && Matches(SamePod, want, PodOf(live));
    }
    forall have: Obj | MadeFrom(b, have) && Matches(SamePod, want, have) ensures SpecFits(Admitted, want.spec, b) {
      BothMatchAgree(Encode(want.spec), Encode(b), have.spec);
    }
  }

  /* The verdict on every live pod made from b is that on b itself. */
  ghost predicate IsExact(want: Manifest, b: PodSpec)
    requires want.PodM?
  {
    forall have: Obj | MadeFrom(b, have) :: Matches(SamePod, want, have) <==> SpecFits(AsIs, want.spec, b)
  }

  /** A live pod matches exactly when every wanted field has the same value in the
      spec it was made from, for all such live pods, if and only if nothing is
      wanted that this spec leaves to admission, or it contradicts this spec. */
  lemma ComparePodsIsExactIff(want: Manifest, b: PodSpec)
    requires want.PodM?
    ensures IsExact(want, b) <==> SpecFits(Coverage, want.spec, b) || !SpecFits(Admitted, want.spec, b)
  {
    hide Encode, SpecFits, Derives, Agree, Within;
    SpecRelated(AsIs, want.spec, b);
    SpecRelated(Admitted, want.spec, b);
    SpecRelated(Coverage, want.spec, b);
    DerivesIffAgrees(Encode(want.spec), Encode(b));
    KeptForSomeAdmissionIff(want, b);
    KeptWhateverAdmissionIff(want, b);
  }

  /** The condition can fail: a user that is wanted where none was set before goes
      unnoticed when admission has filled in the same one. */
  lemma FilledInUserIsUnnoticed(user: int)
    ensures var before := PodSpec(None, None, [], [Container("postgres", "img", [], [], None, [])], []);
      var want := PodM(Key(PodKind, "ns", "db"), map[], before.(fsGroup := Some(user)));
      !SpecFits(AsIs, want.spec, before) && !IsExact(want, before)
  {
    var before := PodSpec(None, None, [], [Container("postgres", "img", [], [], None, [])], []);
    var want := PodM(Key(PodKind, "ns", "db"), map[], before.(fsGroup := Some(user)));
    assert ContainerFits(Admitted, before.containers[0], before.containers[0]);
    ComparePodsIsExactIff(want, before);
  }
}
