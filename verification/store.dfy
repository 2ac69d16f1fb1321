/** The config store of `src/config/github.ts`: the in-memory `currentConfig`
    and the persisted local-storage slot under the key `github_config`, with
    the initial load, partial update and reset as pure state transitions. */
module ConfigStore {
  import opened Wrappers
  import opened GitHubConfig

  /** The serialisation pair the store relies on (`JSON.stringify` and
      `JSON.parse`), kept abstract. `parse` yields `None` when it throws, and
      otherwise the keys of the parsed value that the record knows. */
  datatype Codec = Codec(serialize: Config -> string, parse: string -> Option<Patch>)

  /** What parsing the serialised record gives back: every key of the record,
      except that an undefined token is dropped, as `JSON.stringify` drops
      `undefined` members. */
  function Persisted(c: Config): Patch {
    Patch(Some(c.owner), Some(c.repo), Some(c.path), if c.token.Some? then Some(c.token) else None)
  }

  /** The codec round-trips: a serialised record is a non-empty string (it is
      at least `{}`) and parses back to `Persisted` of it. */
  ghost predicate RoundTrips(codec: Codec) {
    forall c: Config :: codec.serialize(c) != "" && codec.parse(codec.serialize(c)) == Some(Persisted(c))
  }

  /** A sample codec, used only to show that `RoundTrips` can be met: each
      string is written as its length in '#' marks, a '.', and the string;
      the token field is left out when the token is undefined. */
  function Field(s: string): (r: string)
    ensures |r| > 0
  {
    seq(|s|, _ => '#') + "." + s
  }

  /** The number of leading '#' marks of `s`. */
  function Marks(s: string): (n: nat)
    ensures n <= |s|
  {
    if |s| > 0 && s[0] == '#' then 1 + Marks(s[1..]) else 0
  }

  /** The first field of `s` and what follows it. */
  function ReadField(s: string): Option<(string, string)> {
    var n := Marks(s);
    if n + 1 + n <= |s| && s[n] == '.' then Some((s[n + 1..n + 1 + n], s[n + 1 + n..])) else None
  }

  lemma {:induction false} MarksOf(n: nat, rest: string)
    requires |rest| > 0 && rest[0] == '.'
    ensures Marks(seq(n, _ => '#') + rest) == n
    decreases n
  {
    if n > 0 {
      var s := seq(n, _ => '#') + rest;
      assert s[1..] == seq(n - 1, _ => '#') + rest;
      MarksOf(n - 1, rest);
    } else {
      assert seq(n, _ => '#') + rest == rest;
    }
  }

  lemma ReadFieldOf(a: string, rest: string)
    ensures ReadField(Field(a) + rest) == Some((a, rest))
  {
    var marks: string := seq(|a|, _ => '#');
    assert Field(a) + rest == marks + ("." + a + rest);
    MarksOf(|a|, "." + a + rest);
  }

  function SampleSerialize(c: Config): string {
    Field(c.owner) + Field(c.repo) + Field(c.path) + (if c.token.Some? then Field(c.token.value) else "")
  }

  function SampleParse(text: string): Option<Patch> {
    match ReadField(text)
    case None => None
    case Some((owner, r1)) =>
      match ReadField(r1)
      case None => None
      case Some((repo, r2)) =>
        match ReadField(r2)
        case None => None
        case Some((path, r3)) =>
          if r3 == "" then Some(Patch(Some(owner), Some(repo), Some(path), None))
          else
            match ReadField(r3)
            case Some((token, "")) => Some(Patch(Some(owner), Some(repo), Some(path), Some(Some(token))))
            case _ => None
  }

  lemma SampleRoundTrip(c: Config)
    ensures SampleSerialize(c) != ""
    ensures SampleParse(SampleSerialize(c)) == Some(Persisted(c))
  {
    var t := if c.token.Some? then Field(c.token.value) else "";
    var text := SampleSerialize(c);
    assert text == Field(c.owner) + (Field(c.repo) + (Field(c.path) + t));
    ReadFieldOf(c.owner, Field(c.repo) + (Field(c.path) + t));
    ReadFieldOf(c.repo, Field(c.path) + t);
    ReadFieldOf(c.path, t);
    if c.token.Some? {
      ReadFieldOf(c.token.value, "");
      assert t + "" == t;
    }
  }

  /** The round-trip hypothesis on codecs is satisfiable. */
  lemma RoundTripsSatisfiable()
    ensures exists codec :: RoundTrips(codec)
  {
    var codec := Codec(SampleSerialize, SampleParse);
    forall c: Config
      ensures codec.serialize(c) != "" && codec.parse(codec.serialize(c)) == Some(Persisted(c))
    {
      SampleRoundTrip(c);
    }
    assert RoundTrips(codec);
  }

  /** The result of `localStorage.getItem`: it may throw, or return the item
      or `null` (`None`). */
  datatype Read = ReadFailed | ReadOk(item: Option<string>)

  /** The item is a non-empty string that parses. */
  predicate Parses(codec: Codec, read: Read) {
    read.ReadOk? && read.item.Some? && read.item.value != "" && codec.parse(read.item.value).Some?
  }

  /** `loadSavedConfig`: the defaults with the parsed item's keys spread over
      them; the plain defaults when the slot is empty (`null` or `''`, both
      falsy), when reading throws and when parsing throws. */
  function Load(codec: Codec, read: Read): (r: Config)
    ensures Parses(codec, read) ==> r == Merge(Default, codec.parse(read.item.value).value)
    ensures !Parses(codec, read) ==> r == Default
  {
    match read
    case ReadFailed => Default
    case ReadOk(None) => Default
    case ReadOk(Some(text)) =>
      if text == "" then Default
      else
        match codec.parse(text)
        case None => Default
        case Some(saved) => Merge(Default, saved)
  }

  /** The two pieces of state: `currentConfig` and the local-storage slot
      under the key `github_config` (the only key the store uses). */
  datatype Store = Store(current: Config, slot: Option<string>)

  /** Module initialisation, `let currentConfig = loadSavedConfig()`, over a
      slot that may or may not be readable. */
  function Init(codec: Codec, slot: Option<string>, readable: bool): (r: Store)
    ensures r.slot == slot
    ensures readable ==> r.current == Reload(codec, r)
    ensures !readable ==> r.current == Default
    // A corollary of the clauses above and `Load`'s contract, stated for the reader.
    ensures readable && slot.None? ==> r.current == Default
  {
    Store(Load(codec, if readable then ReadOk(slot) else ReadFailed), slot)
  }

  /** `updateGitHubConfig(patch)`. The in-memory record takes the merge
      whether or not `setItem` succeeds (`saved`); the slot holds the
      serialised merge when it does and is untouched when it throws. */
  function Update(codec: Codec, st: Store, patch: Patch, saved: bool): (r: Store)
    ensures r.current == Merge(st.current, patch)
    ensures saved ==> r.slot == Some(codec.serialize(r.current))
    ensures !saved ==> r.slot == st.slot
  {
    var merged := Merge(st.current, patch);
    Store(merged, if saved then Some(codec.serialize(merged)) else st.slot)
  }

  /** `resetGitHubConfig`. The record becomes the defaults whether or not
      `removeItem` succeeds (`cleared`); the slot is emptied when it does. */
  function Reset(st: Store, cleared: bool): (r: Store)
    ensures r.current == Default
    ensures cleared ==> r.slot == None
    ensures !cleared ==> r.slot == st.slot
  {
    Store(Default, if cleared then None else st.slot)
  }

  /** What a page reload would load from the slot, reading it successfully. */
  function Reload(codec: Codec, st: Store): Config {
    Load(codec, ReadOk(st.slot))
  }

  /** After a persisted update, a reload yields the updated record, up to an
      undefined token coming back as `''`; exactly the updated record when its
      token is defined. */
  lemma UpdateThenReload(codec: Codec, st: Store, patch: Patch)
    requires RoundTrips(codec)
    ensures Reload(codec, Update(codec, st, patch, true)) == Normalize(Merge(st.current, patch))
    ensures Merge(st.current, patch).token.Some? ==>
              Reload(codec, Update(codec, st, patch, true)) == Merge(st.current, patch)
  {
  }

  /** After a failed `setItem` a reload still sees what was persisted before. */
  lemma UnsavedUpdateThenReload(codec: Codec, st: Store, patch: Patch)
    ensures Reload(codec, Update(codec, st, patch, false)) == Reload(codec, st)
  {
  }

  /** After a reset that cleared the slot, a reload yields the defaults. */
  lemma ResetThenReload(codec: Codec, st: Store)
    ensures Reload(codec, Reset(st, true)) == Default
  {
  }

  /** Resetting twice is resetting once with either removal succeeding; in
      particular a second reset after a clearing one changes nothing. */
  lemma ResetTwice(st: Store, first: bool, second: bool)
    ensures Reset(Reset(st, first), second) == Reset(st, first || second)
    ensures Reset(Reset(st, true), second) == Reset(st, true)
  {
  }

  /** One call to the store's mutating API with the storage outcome it met. */
  datatype Op = UpdateOp(patch: Patch, saved: bool) | ResetOp(cleared: bool)

  /** The storage write of `op` succeeded. */
  predicate Persists(op: Op) {
    match op
    case UpdateOp(_, saved) => saved
    case ResetOp(cleared) => cleared
  }

  function Step(codec: Codec, st: Store, op: Op): Store {
    match op
    case UpdateOp(patch, saved) => Update(codec, st, patch, saved)
    case ResetOp(cleared) => Reset(st, cleared)
  }

  /** The store after the calls `ops`, in order. */
  function Replay(codec: Codec, st: Store, ops: seq<Op>): Store
    decreases |ops|
  {
    if |ops| == 0 then st else Replay(codec, Step(codec, st, ops[0]), ops[1..])
  }

  /** A reload would reproduce the in-memory record, up to an undefined token
      coming back as `''`. */
  ghost predicate Coherent(codec: Codec, st: Store) {
    Normalize(Reload(codec, st)) == Normalize(st.current)
  }

  /** A store freshly loaded from a readable slot is coherent. */
  lemma InitCoherent(codec: Codec, slot: Option<string>)
    ensures Coherent(codec, Init(codec, slot, true))
  {
  }

  /** Each persisted call leaves the store coherent, whatever state it started
      from, and the reload then equals the normalised record exactly. */
  lemma StepCoherent(codec: Codec, st: Store, op: Op)
    requires RoundTrips(codec)
    requires Persists(op)
    ensures Reload(codec, Step(codec, st, op)) == Normalize(Step(codec, st, op).current)
  {
  }

  /** Coherence is an invariant of every sequence of `updateGitHubConfig`
      and `resetGitHubConfig` calls whose storage writes all succeed: a reload
      at any point restores the record those calls left in memory. Writes
      through the object `getGitHubConfig` hands out are not such calls. Once at least one call has happened the reload is exactly
      the normalised in-memory record. */
  lemma {:induction false} ReplayCoherent(codec: Codec, st: Store, ops: seq<Op>)
    requires RoundTrips(codec)
    requires Coherent(codec, st)
    requires forall i :: 0 <= i < |ops| ==> Persists(ops[i])
    ensures Coherent(codec, Replay(codec, st, ops))
    ensures |ops| > 0 ==> Reload(codec, Replay(codec, st, ops)) == Normalize(Replay(codec, st, ops).current)
    decreases |ops|
  {
    if |ops| > 0 {
      var next := Step(codec, st, ops[0]);
      StepCoherent(codec, st, ops[0]);
      ReplayCoherent(codec, next, ops[1..]);
      if |ops| == 1 {
        assert Replay(codec, next, ops[1..]) == next;
      }
    }
  }
}
