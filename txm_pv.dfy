/**
 * The `TxmPV` process-variable descriptor and the `permit_required`
 * decorator, in the two revisions of the code base: `scanlib/txm_pv.py`
 * (used by the newer NanoTXM class) and `tomo/32id/txm_pv.py` with the
 * decorator of `tomo/32id/txm.py` (used by the older TXM class).
 *
 * Reading and name formatting are pure functions of the owning instrument
 * (its IOC prefix and its device map). Writing goes through the owner's
 * `pv_put`, so the write paths live with the instrument classes; this
 * module supplies the pieces of `__set__` that do not depend on the owner.
 */
module PvDescriptor {
  import opened Common

  /** The only replacement field a PV name template may contain. */
  const Field: string := "{ioc_prefix}"

  /** The `dtype` argument of a descriptor: none, or Python's `float`. */
  datatype Dtype = Untyped | Float

  /** A `TxmPV(pv_name, dtype, permit_required, wait, as_string)` descriptor. */
  datatype TxmPv = TxmPv(template: string, dtype: Dtype, permitRequired: bool, wait: bool, asString: bool)

  /** The constructor's defaults: `TxmPV(name)`. */
  function Plain(template: string): TxmPv {
    TxmPv(template, Untyped, false, true, false)
  }

  /** The instrument as a descriptor sees it: its IOC prefix and its PV values. */
  datatype Owner = Owner(prefix: string, pvs: map<string, Value>)

  /** Text without any brace character. */
  predicate NoBraces(s: string) {
    forall i :: 0 <= i < |s| ==> s[i] != '{' && s[i] != '}'
  }

  function Prefixed(p: string, r: Result<string>): Result<string> {
    if r.Ok? then Ok(p + r.value) else r
  }

  /**
   * `template.format(ioc_prefix=prefix)`: each `{ioc_prefix}` field becomes
   * the prefix, `{{` and `}}` become single braces, any other brace raises.
   */
  function Format(t: string, prefix: string): Result<string>
    decreases |t|
  {
    if t == [] then Ok([])
    else if |Field| <= |t| && t[..|Field|] == Field then Prefixed(prefix, Format(t[|Field|..], prefix))
    else if 2 <= |t| && t[0] == '{' && t[1] == '{' then Prefixed("{", Format(t[2..], prefix))
    else if 2 <= |t| && t[0] == '}' && t[1] == '}' then Prefixed("}", Format(t[2..], prefix))
    else if t[0] == '{' || t[0] == '}' then Err(FormatError)
    else Prefixed([t[0]], Format(t[1..], prefix))
  }

  /** A template that formats without raising. */
  predicate WellFormed(t: string) {
    Format(t, "").Ok?
  }

  /** Whether a template formats does not depend on the prefix. */
  lemma {:induction false} FormatSucceedsForAnyPrefix(t: string, p: string, q: string)
    ensures Format(t, p).Ok? == Format(t, q).Ok?
    decreases |t|
  {
    if t == [] {
    } else if |Field| <= |t| && t[..|Field|] == Field {
      FormatSucceedsForAnyPrefix(t[|Field|..], p, q);
    } else if 2 <= |t| && ((t[0] == '{' && t[1] == '{') || (t[0] == '}' && t[1] == '}')) {
      FormatSucceedsForAnyPrefix(t[2..], p, q);
    } else if t[0] == '{' || t[0] == '}' {
    } else {
      FormatSucceedsForAnyPrefix(t[1..], p, q);
    }
  }

  lemma NoBracesTail(s: string)
    requires NoBraces(s) && s != []
    ensures s[0] != '{' && s[0] != '}' && NoBraces(s[1..])
  {
    assert forall i :: 0 <= i < |s[1..]| ==> s[1..][i] == s[i + 1];
  }

  /** Text without braces comes back unchanged. */
  lemma {:induction false} FormatLiteral(t: string, p: string)
    requires NoBraces(t)
    ensures Format(t, p) == Ok(t)
    decreases |t|
  {
    if t != [] {
      NoBracesTail(t);
      assert Field[0] == '{';
      assert |Field| <= |t| ==> t[..|Field|][0] == t[0];
      FormatLiteral(t[1..], p);
      assert [t[0]] + t[1..] == t;
    }
  }

  /** One brace-free character is copied to the output. */
  lemma FormatPlainChar(c: char, rest: string, p: string)
    requires c != '{' && c != '}'
    ensures Format([c] + rest, p) == Prefixed([c], Format(rest, p))
  {
    var t := [c] + rest;
    assert t[0] == c && t[1..] == rest;
    assert Field[0] == '{';
    assert |Field| <= |t| ==> t[..|Field|][0] == c;
  }

  /** A leading `{ioc_prefix}` field becomes the prefix. */
  lemma FormatField(rest: string, p: string)
    ensures Format(Field + rest, p) == Prefixed(p, Format(rest, p))
  {
    var t := Field + rest;
    assert t[..|Field|] == Field && t[|Field|..] == rest;
  }

  lemma FormatFieldThenLiteral(b: string, p: string)
    requires NoBraces(b)
    ensures Format(Field + b, p) == Ok(p + b)
  {
    FormatField(b, p);
    FormatLiteral(b, p);
  }

  /**
   * `pv_name`: a template made of brace-free text around one `{ioc_prefix}`
   * field becomes that text around the owner's prefix.
   */
  lemma {:induction false} FormatPrefixed(a: string, b: string, p: string)
    requires NoBraces(a) && NoBraces(b)
    ensures Format(a + Field + b, p) == Ok(a + p + b)
    decreases |a|
  {
    if a == [] {
      assert a + Field + b == Field + b;
      assert a + p + b == p + b;
      FormatFieldThenLiteral(b, p);
    } else {
      NoBracesTail(a);
      ConsAppend(a, Field, b);
      FormatPlainChar(a[0], a[1..] + Field + b, p);
      FormatPrefixed(a[1..], b, p);
      ConsAppend(a, p, b);
    }
  }

  /** `TxmPV.pv_name(txm)`. */
  function PvName(pv: TxmPv, prefix: string): string
    requires WellFormed(pv.template)
  {
    FormatSucceedsForAnyPrefix(pv.template, prefix, "");
    Format(pv.template, prefix).value
  }

  /**
   * The name is the template with its `{ioc_prefix}` field, if it has one,
   * replaced by the owner's prefix.
   */
  lemma PvNameSubstitutes(pv: TxmPv, prefix: string, a: string, b: string)
    requires WellFormed(pv.template) && NoBraces(a) && NoBraces(b)
    ensures pv.template == a ==> PvName(pv, prefix) == a
    ensures pv.template == a + Field + b ==> PvName(pv, prefix) == a + prefix + b
  {
    if pv.template == a {
      FormatLiteral(a, prefix);
    }
    if pv.template == a + Field + b {
      FormatPrefixed(a, b, prefix);
    }
  }

  lemma FormatLiteralAll(t: string)
    requires NoBraces(t)
    ensures forall p :: Format(t, p) == Ok(t)
  {
    forall p ensures Format(t, p) == Ok(t) {
      FormatLiteral(t, p);
    }
  }

  lemma FormatFieldAll(rest: string)
    requires NoBraces(rest)
    ensures forall p :: Format(Field + rest, p) == Ok(p + rest)
  {
    forall p ensures Format(Field + rest, p) == Ok(p + rest) {
      FormatFieldThenLiteral(rest, p);
    }
  }

  /** A descriptor whose template formats: the kind every instrument class declares. */
  type Descriptor = pv: TxmPv | WellFormed(pv.template) witness Plain("")

  /** `TxmPV(name, ...)` on a fixed PV name: the name is used as it is. */
  function Fixed(name: string, dtype: Dtype, permitRequired: bool, wait: bool): (pv: Descriptor)
    requires NoBraces(name)
    ensures pv.template == name && pv.dtype == dtype && pv.permitRequired == permitRequired && pv.wait == wait
    ensures forall prefix :: PvName(pv, prefix) == name
  {
    FormatLiteralAll(name);
    TxmPv(name, dtype, permitRequired, wait, false)
  }

  /** `TxmPV('{ioc_prefix}' + rest, ...)`: a PV of the camera IOC. */
  function OnIoc(rest: string, dtype: Dtype, permitRequired: bool, wait: bool): (pv: Descriptor)
    requires NoBraces(rest)
    ensures pv.template == Field + rest && pv.dtype == dtype && pv.permitRequired == permitRequired && pv.wait == wait
    ensures forall prefix :: PvName(pv, prefix) == prefix + rest
  {
    FormatFieldAll(rest);
    TxmPv(Field + rest, dtype, permitRequired, wait, false)
  }

  /** `pv_get` on the in-memory device: the stored value, or None. */
  function DeviceGet(pvs: map<string, Value>, name: string): Value {
    if name in pvs then pvs[name] else VNone
  }

  /** The outcome of reading a descriptor. */
  datatype Read =
    | Itself                                       // read through the class: the descriptor itself
    | Got(value: Value, warning: Option<Warning>)  // the value, and the cast warning if one was issued
    | ReadRaised(error: Error)                     // the dtype raised something other than TypeError

  /** The dtype step of `__get__` (both revisions): TypeError warns and keeps the raw value. */
  function Coerce(dtype: Dtype, name: string, raw: Value): Read {
    match dtype
    case Untyped => Got(raw, None)
    case Float =>
      match FloatOf(raw)
      case Ok(x) => Got(VNum(x), None)
      case Err(e) => if e == TypeError then Got(raw, Some(CastFailed(name))) else ReadRaised(e)
  }

  /**
   * The dtype step on a raw value: kept as it is without a dtype or when it
   * already is a number; text `float` parses becomes its number; None or a
   * list makes `float` raise TypeError, which warns and keeps the raw value;
   * other text raises ValueError.
   */
  lemma CoerceCases(dtype: Dtype, name: string, raw: Value)
    ensures var r := Coerce(dtype, name, raw);
            && (dtype.Untyped? || raw.VNum? ==> r == Got(raw, None))
            && (dtype.Float? && (raw.VNone? || raw.VList?) ==> r == Got(raw, Some(CastFailed(name))))
            && (dtype.Float? && raw.VStr? && ParseFloat(raw.str).Some? ==> r == Got(VNum(ParseFloat(raw.str).value), None))
            && (dtype.Float? && raw.VStr? && ParseFloat(raw.str).None? ==> r == ReadRaised(ValueError))
  {
  }

  /** The cast warning a read issued, if any. */
  function CastWarnings(r: Read): seq<Warning> {
    if r.Got? && r.warning.Some? then [r.warning.value] else []
  }

  /** `TxmPV.__get__` of scanlib/txm_pv.py; `owner` is None when read through the class. */
  function Get(pv: TxmPv, owner: Option<Owner>): (r: Read)
    requires WellFormed(pv.template)
    ensures owner.None? <==> r.Itself?
    ensures r.ReadRaised? ==> pv.dtype.Float? && r.error == ValueError
  {
    match owner
    case None => Itself
    case Some(o) =>
      var name := PvName(pv, o.prefix);
      Coerce(pv.dtype, name, DeviceGet(o.pvs, name))
  }

  /**
   * `TxmPV.__get__` of tomo/32id/txm_pv.py, which always reads through the
   * owner: read through the class, formatting the name looks up
   * `ioc_prefix` on None and raises AttributeError.
   */
  function GetTomo(pv: TxmPv, owner: Option<Owner>): Read
    requires WellFormed(pv.template)
  {
    match owner
    case None => ReadRaised(AttributeError)
    case Some(o) =>
      var name := PvName(pv, o.prefix);
      Coerce(pv.dtype, name, DeviceGet(o.pvs, name))
  }

  /**
   * A tomo read raises AttributeError exactly when made through the class;
   * through an instance it never yields the descriptor, and only a Float
   * descriptor's ValueError escapes.
   */
  lemma GetTomoOutcomes(pv: TxmPv, owner: Option<Owner>)
    requires WellFormed(pv.template)
    ensures var r := GetTomo(pv, owner);
            && (owner.None? <==> r == ReadRaised(AttributeError))
            && !r.Itself?
            && (r.ReadRaised? && owner.Some? ==> pv.dtype.Float? && r.error == ValueError)
  {
  }

  /**
   * The two revisions read the same through an instance; through the class
   * the scanlib revision yields the descriptor and the tomo one raises.
   */
  lemma GetRevisionsAgree(pv: TxmPv, owner: Option<Owner>)
    requires WellFormed(pv.template)
    ensures owner.Some? ==> Get(pv, owner) == GetTomo(pv, owner)
    ensures owner.None? ==> Get(pv, owner) == Itself && GetTomo(pv, owner) == ReadRaised(AttributeError)
  {
  }

  /**
   * What a read through an instance yields: the stored value (None when the
   * device has no entry) when there is no dtype or the value already is a
   * number; the number a Float descriptor's text spells; the raw value with
   * one cast warning when `float` raises TypeError; an escaping ValueError
   * for text that is not a number.
   */
  lemma ReadCoercion(pv: TxmPv, o: Owner)
    requires WellFormed(pv.template)
    ensures var name := PvName(pv, o.prefix);
            var raw := DeviceGet(o.pvs, name);
            var r := GetTomo(pv, Some(o));
            && (pv.dtype.Untyped? || raw.VNum? ==> r == Got(raw, None))
            && (pv.dtype.Float? && (raw.VNone? || raw.VList?) ==> r == Got(raw, Some(CastFailed(name))))
            && (pv.dtype.Float? && raw.VStr? && ParseFloat(raw.str).Some? ==> r == Got(VNum(ParseFloat(raw.str).value), None))
            && (pv.dtype.Float? && raw.VStr? && ParseFloat(raw.str).None? ==> r == ReadRaised(ValueError))
            && (name !in o.pvs ==> r.Got? && r.value == VNone)
  {
    CoerceCases(pv.dtype, PvName(pv, o.prefix), DeviceGet(o.pvs, PvName(pv, o.prefix)));
  }

  /** Whether `__set__` may call `pv_put`: the same test in both revisions. */
  predicate Permitted(pv: TxmPv, hasPermit: bool) {
    !pv.permitRequired || hasPermit
  }

  /** How the device answered a `pv_put`. */
  datatype Reply = Acked | NotAcked | RaisedTypeError

  /**
   * scanlib `__set__` after the put: a TypeError counts as failure; a failed
   * write warns only when the descriptor waits. It never raises.
   */
  function ScanlibSetWarnings(pv: TxmPv, name: string, reply: Reply): (w: seq<Warning>)
    ensures |w| <= 1
    ensures w != [] <==> reply != Acked && pv.wait
  {
    if reply != Acked && pv.wait then [PutFailed(name)] else []
  }

  /** tomo `__set__` after the put: a falsy reply raises PVError, a TypeError escapes. */
  function TomoSetStatus(reply: Reply): (s: Status)
    ensures s.Done? <==> reply == Acked
    ensures reply == NotAcked ==> s == Raised(PVError)
  {
    match reply
    case Acked => Done
    case NotAcked => Raised(PVError)
    case RaisedTypeError => Raised(TypeError)
  }

  /** What a `permit_required`-decorated method does when called. */
  datatype Gate = Invoke | WarnAndReturnNone

  /** scanlib's `permit_required`: its test is `obj.has_permit and False`. */
  function ScanlibPermitRequired(hasPermit: bool): (g: Gate)
    ensures g == WarnAndReturnNone
  {
    if hasPermit && false then Invoke else WarnAndReturnNone
  }

  /** The `permit_required` of tomo/32id/txm.py. */
  function TomoPermitRequired(hasPermit: bool): (g: Gate)
    ensures g == Invoke <==> hasPermit
  {
    if hasPermit then Invoke else WarnAndReturnNone
  }

  /**
   * The scanlib decorator and the one its doc-comment describes (and the tomo
   * revision implements) disagree exactly when the owner holds the permit.
   */
  lemma PermitDecoratorsDiffer(hasPermit: bool)
    ensures ScanlibPermitRequired(hasPermit) != TomoPermitRequired(hasPermit) <==> hasPermit
  {
  }
}
