/** The keys a config file may set, the raw values it may set them to, and the
    range each numeric one has to be in. */
module ConfigKeys {
  import opened Machine
  import opened Domain

  datatype Key =
    | VramFloorMiB | DefaultWorkload | ReactiveMode | PollInterval | GpuIndex | MinEffectMiB | ActionCooldown
    | Adapter | Endpoint | Unit | UserUnit | Priority | AllowStop | Timeout | DrainTimeout

  predicate PolicyKey(k: Key) {
    k in {VramFloorMiB, DefaultWorkload, ReactiveMode, PollInterval, GpuIndex, MinEffectMiB, ActionCooldown}
  }

  /** A TOML value. A string carries what parsing it as a duration gives. */
  datatype Raw = Str(text: string, asDuration: Option<i64>) | Whole(n: i64) | Truth(b: bool) | Other

  datatype Value = Num(n: int) | Txt(text: string) | Flag(b: bool) | Kind(adapter: AdapterKind)

  function AdapterOf(text: string): AdapterKind {
    if text == "ollama" then Ollama
    else if text == "comfyui" then ComfyUI
    else if text == "llama-swap" then LlamaSwap
    else if text == "systemd-unit" then SystemdUnit
    else UnknownAdapter(text)
  }

  /** How an adapter is written. */
  function NameOf(kind: AdapterKind): string {
    match kind
    case Ollama => "ollama"
    case ComfyUI => "comfyui"
    case LlamaSwap => "llama-swap"
    case SystemdUnit => "systemd-unit"
    case UnknownAdapter(text) => text
  }

  /** Adapters are read back as they are written, and nothing else is one of them. */
  lemma {:induction false} AdaptersReadBack(kind: AdapterKind, text: string)
    ensures NameOf(AdapterOf(text)) == text
    ensures !kind.UnknownAdapter? ==> AdapterOf(NameOf(kind)) == kind
  {
    assert NameOf(Ollama)[0] == 'o' && NameOf(ComfyUI)[0] == 'c';
    assert NameOf(LlamaSwap)[0] == 'l' && NameOf(SystemdUnit)[0] == 's';
  }

  /** The typed decode of one key. A whole number reaches a duration as its
      digits, of which only a bare 0 parses; one written to an unsigned field
      wraps. */
  function Decode(k: Key, raw: Raw): Option<Value> {
    match k
    case VramFloorMiB => if raw.Whole? then Some(Num(WrapU64(raw.n))) else None
    case MinEffectMiB => if raw.Whole? then Some(Num(WrapU64(raw.n))) else None
    case GpuIndex => if raw.Whole? then Some(Num(raw.n)) else None
    case Priority => if raw.Whole? then Some(Num(raw.n)) else None
    case ReactiveMode => if raw.Truth? then Some(Flag(raw.b)) else None
    case UserUnit => if raw.Truth? then Some(Flag(raw.b)) else None
    case AllowStop => if raw.Truth? then Some(Flag(raw.b)) else None
    case DefaultWorkload => if raw.Str? then Some(Txt(raw.text)) else None
    case Endpoint => if raw.Str? then Some(Txt(raw.text)) else None
    case Unit => if raw.Str? then Some(Txt(raw.text)) else None
    case Adapter => if raw.Str? then Some(Kind(AdapterOf(raw.text))) else None
    case _ =>
      if raw.Str? && raw.asDuration.Some? then Some(Num(raw.asDuration.value))
      else if raw == Whole(0) then Some(Num(0))
      else None
  }

  /** What a typed field holds when nothing sets it. */
  function Zero(k: Key): Value {
    match k
    case DefaultWorkload => Txt("")
    case Endpoint => Txt("")
    case Unit => Txt("")
    case Adapter => Kind(UnknownAdapter(""))
    case ReactiveMode => Flag(false)
    case UserUnit => Flag(false)
    case AllowStop => Flag(false)
    case _ => Num(0)
  }

  /** The field a block leaves for a key it may or may not set. */
  function Field(keys: map<Key, Raw>, k: Key): Value {
    if k in keys && Decode(k, keys[k]).Some? then Decode(k, keys[k]).value else Zero(k)
  }

  // ------------------------------------------------------------------- bounds

  /** A legal range: min and, unless 0, max, both inclusive; in nanoseconds for a
      duration. A signed key has none. */
  datatype Bound = Bound(key: Key, duration: bool, min: i64, max: i64, signed: bool)

  const MIN_POLL_INTERVAL: i64 := SECOND
  const MAX_TIMEOUT: i64 := 3600 * SECOND
  const MAX_DRAIN_TIMEOUT: i64 := 600 * SECOND

  const NUMERIC_BOUNDS: seq<Bound> := [
    Bound(VramFloorMiB, false, 0, 0, false),
    Bound(MinEffectMiB, false, 0, 0, false),
    Bound(GpuIndex, false, 0, 0, false),
    Bound(PollInterval, true, MIN_POLL_INTERVAL, 0, false),
    Bound(ActionCooldown, true, 1, 0, false),
    Bound(Priority, false, 0, 0, true),
    Bound(Timeout, true, 1, MAX_TIMEOUT, false),
    Bound(DrainTimeout, true, 1, MAX_DRAIN_TIMEOUT, false)]

  /** What it is for a decoded figure to be in a range. */
  predicate InRange(b: Bound, n: int) {
    b.signed || (b.min <= n && (b.max > 0 ==> n <= b.max))
  }

  datatype Refusal = NotADuration | NotPositive | TooShort | TooLong | TooSmall

  /** checkBound, on the raw value. What the typed decode refuses it lets pass. */
  function CheckBound(b: Bound, raw: Raw): Option<Refusal> {
    if b.signed then None
    else if b.duration then
      if !raw.Str? then Some(NotADuration)
      else
        match raw.asDuration
        case None => None
        case Some(d) =>
          if b.min == 1 && d <= 0 then Some(NotPositive)
          else if d < b.min then Some(TooShort)
          else if b.max > 0 && d > b.max then Some(TooLong)
          else None
    else if !raw.Whole? then None
    else if raw.n < b.min then Some(TooSmall)
    else None
  }

  /** The raw check and the typed decode together let a value through exactly
      when it decodes without wrapping to a figure in range, and no bare number
      ever stands for a duration. */
  lemma {:induction false} BoundedIff(b: Bound, raw: Raw)
    requires b in NUMERIC_BOUNDS && !b.signed
    ensures CheckBound(b, raw).None? && Decode(b.key, raw).Some? <==>
      if b.duration then raw.Str? && raw.asDuration.Some? && InRange(b, raw.asDuration.value)
      else raw.Whole? && InRange(b, raw.n)
    ensures CheckBound(b, raw).None? && Decode(b.key, raw).Some? ==>
      Decode(b.key, raw).value == Num(if b.duration then raw.asDuration.value else raw.n)
  {
  }

  /** Without the raw check a negative figure would pass for a huge one, and a
      bare 0 for a duration nobody wrote. */
  lemma {:induction false} RawCheckIsNeeded()
    ensures Decode(VramFloorMiB, Whole(-1)) == Some(Num(TWO_64 - 1))
    ensures Decode(PollInterval, Whole(0)) == Some(Num(0))
    ensures CheckBound(NUMERIC_BOUNDS[0], Whole(-1)).Some? && CheckBound(NUMERIC_BOUNDS[3], Whole(0)).Some?
  {
    assert WrapU64(-1) == TWO_64 - 1;
  }

  /** What a file may write for a key, spelled out. */
  predicate Acceptable(k: Key, raw: Raw) {
    match k
    case VramFloorMiB => raw.Whole? && raw.n >= 0
    case MinEffectMiB => raw.Whole? && raw.n >= 0
    case GpuIndex => raw.Whole? && raw.n >= 0
    case Priority => raw.Whole?
    case PollInterval => Lasts(raw, 1_000_000_000, MAX_INT64)
    case ActionCooldown => Lasts(raw, 1, MAX_INT64)
    case Timeout => Lasts(raw, 1, 3_600_000_000_000)
    case DrainTimeout => Lasts(raw, 1, 600_000_000_000)
    case ReactiveMode => raw.Truth?
    case UserUnit => raw.Truth?
    case AllowStop => raw.Truth?
    case _ => raw.Str?
  }

  predicate Lasts(raw: Raw, least: int, most: int) {
    raw.Str? && raw.asDuration.Some? && least <= raw.asDuration.value <= most
  }

  /** What an acceptable value is taken for. */
  function Meant(k: Key, raw: Raw): Value
    requires Acceptable(k, raw)
  {
    match raw
    case Whole(n) => Num(n)
    case Truth(b) => Flag(b)
    case Str(text, d) =>
      if k == Adapter then Kind(AdapterOf(text))
      else if k in {PollInterval, ActionCooldown, Timeout, DrainTimeout} then Num(d.value)
      else Txt(text)
  }

  ghost predicate InBounds(k: Key, raw: Raw) {
    forall b :: b in NUMERIC_BOUNDS && b.key == k ==> CheckBound(b, raw).None?
  }

  /** The bounds table and the typed decode together let exactly the acceptable
      values through, each for what it says: no key is without its bound. */
  lemma {:induction false} AcceptableIff(k: Key, raw: Raw)
    ensures InBounds(k, raw) && Decode(k, raw).Some? <==> Acceptable(k, raw)
    ensures Acceptable(k, raw) ==> Decode(k, raw) == Some(Meant(k, raw))
  {
    MeantIsDecoded(k, raw);
    BoundsAreOne(k, raw);
    hide InBounds, Meant, AdapterOf;
  }

  lemma {:induction false} MeantIsDecoded(k: Key, raw: Raw)
    ensures Acceptable(k, raw) ==> Decode(k, raw) == Some(Meant(k, raw))
  {
    hide AdapterOf;
  }

  lemma {:induction false} BoundsAreOne(k: Key, raw: Raw)
    ensures InBounds(k, raw) <==> (Slot(k).Some? ==> CheckBound(NUMERIC_BOUNDS[Slot(k).value], raw).None?)
  {
    OneBoundEach(k);
    hide CheckBound;
    if Slot(k).Some? {
      assert NUMERIC_BOUNDS[Slot(k).value] in NUMERIC_BOUNDS;
    }
  }

  /** Where a figure's bound is in the table. */
  function Slot(k: Key): (i: Option<nat>)
    ensures i.Some? ==> i.value < |NUMERIC_BOUNDS| && NUMERIC_BOUNDS[i.value].key == k
    ensures i.Some? <==> Zero(k).Num?
  {
    match k
    case VramFloorMiB => Some(0)
    case MinEffectMiB => Some(1)
    case GpuIndex => Some(2)
    case PollInterval => Some(3)
    case ActionCooldown => Some(4)
    case Priority => Some(5)
    case Timeout => Some(6)
    case DrainTimeout => Some(7)
    case _ => None
  }

  ghost predicate OnlyBound(k: Key) {
    forall b :: b in NUMERIC_BOUNDS && b.key == k ==> Slot(k).Some? && b == NUMERIC_BOUNDS[Slot(k).value]
  }

  lemma {:induction false} OneBoundEach(k: Key)
    ensures OnlyBound(k)
  {
    assert |NUMERIC_BOUNDS| == 8;
    forall b | b in NUMERIC_BOUNDS && b.key == k ensures Slot(k).Some? && b == NUMERIC_BOUNDS[Slot(k).value] {
      var i :| 0 <= i < 8 && NUMERIC_BOUNDS[i] == b;
      assert i == 0 || i == 1 || i == 2 || i == 3 || i == 4 || i == 5 || i == 6 || i == 7;
    }
  }

  /** The same for a whole table. */
  lemma {:induction false} AcceptableTableIff(keys: map<Key, Raw>, policy: bool)
    requires forall k :: k in keys ==> PolicyKey(k) == policy
    ensures AllInBounds(keys, policy) && AllDecode(keys) <==> forall k :: k in keys ==> Acceptable(k, keys[k])
  {
    hide Acceptable, Decode, CheckBound, PolicyKey;
    forall k | k in keys ensures InBounds(k, keys[k]) && Decode(k, keys[k]).Some? <==> Acceptable(k, keys[k]) {
      AcceptableIff(k, keys[k]);
    }
    if AllInBounds(keys, policy) && AllDecode(keys) {
      forall k | k in keys ensures Acceptable(k, keys[k]) {
        assert InBounds(k, keys[k]);
      }
    }
  }

  ghost predicate AllInBounds(keys: map<Key, Raw>, policy: bool) {
    forall b :: b in NUMERIC_BOUNDS && PolicyKey(b.key) == policy && b.key in keys ==> CheckBound(b, keys[b.key]).None?
  }

  /** checkBounds over one table: the first key out of bounds, if any. */
  method CheckBounds(keys: map<Key, Raw>, policy: bool) returns (bad: Option<Key>)
    ensures bad.None? <==> AllInBounds(keys, policy)
  {
    for i := 0 to |NUMERIC_BOUNDS|
      invariant forall b :: b in NUMERIC_BOUNDS[..i] && PolicyKey(b.key) == policy && b.key in keys ==>
        CheckBound(b, keys[b.key]).None?
    {
      var b := NUMERIC_BOUNDS[i];
      assert NUMERIC_BOUNDS[..i + 1] == NUMERIC_BOUNDS[..i] + [b];
      if PolicyKey(b.key) != policy || b.key !in keys {
        continue;
      }
      if CheckBound(b, keys[b.key]).Some? {
        assert b in NUMERIC_BOUNDS;
        return Some(b.key);
      }
    }
    assert NUMERIC_BOUNDS[..|NUMERIC_BOUNDS|] == NUMERIC_BOUNDS;
    return None;
  }

  ghost predicate AllDecode(keys: map<Key, Raw>) {
    forall k :: k in keys ==> Decode(k, keys[k]).Some?
  }

  /** The figure a bounded key of an accepted table decodes to is in its range. */
  lemma {:induction false} FieldInRange(keys: map<Key, Raw>, policy: bool, b: Bound)
    requires AllInBounds(keys, policy) && AllDecode(keys)
    requires b in NUMERIC_BOUNDS && PolicyKey(b.key) == policy && b.key in keys
    ensures Field(keys, b.key).Num? && InRange(b, Field(keys, b.key).n)
  {
    if !b.signed {
      BoundedIff(b, keys[b.key]);
    }
  }
}
