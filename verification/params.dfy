/**
 * Request parameters and the cleaning `make_request` applies to them before
 * signing: default response format, identifier joining, dropping `None`s.
 */
module Params {
  import opened Wrappers
  import opened Text

  /** A parameter value as callers pass it: Python's `None`, a string, or a list of path segments. */
  datatype Value = Null | Str(s: string) | List(items: seq<string>)

  type ParamMap = map<string, Value>

  const FORMAT: string := "format"
  const ID: string := "id"
  const DEFAULT_FORMAT: Value := Str("json")

  /** Photobucket's escaped `/`, placed between the segments of a list identifier. */
  const IDENTIFIER_SEPARATOR: string := "%2F"

  /** Python truthiness of a parameter value. */
  predicate Truthy(v: Value)
  {
    match v
    case Null => false
    case Str(s) => s != ""
    case List(xs) => xs != []
  }

  /** `remove_empty`: drops every key whose value is `None`, and touches nothing else. */
  function RemoveEmpty(d: ParamMap): (r: ParamMap)
    ensures forall k :: k in r <==> k in d && d[k] != Null
    ensures forall k :: k in r ==> r[k] == d[k]
  {
    map k | k in d && d[k] != Null :: d[k]
  }

  /** Removing `None`s is a no-op exactly on maps that hold none. */
  lemma RemoveEmptyFixpoint(d: ParamMap)
    ensures RemoveEmpty(d) == d <==> forall k :: k in d ==> d[k] != Null
    ensures RemoveEmpty(RemoveEmpty(d)) == RemoveEmpty(d)
  {
    if forall k :: k in d ==> d[k] != Null {
      assert RemoveEmpty(d).Keys == d.Keys;
    }
  }

  lemma SeparatorUnbordered()
    ensures Unbordered(IDENTIFIER_SEPARATOR)
  {
    assert IDENTIFIER_SEPARATOR[..1] == "%";
    assert IDENTIFIER_SEPARATOR[2..] == "F";
    assert IDENTIFIER_SEPARATOR[..2] == "%2";
    assert IDENTIFIER_SEPARATOR[1..] == "2F";
  }

  /** A list identifier whose segments survive joining: at least one segment, none containing `%2F`. */
  ghost predicate PlainSegments(xs: seq<string>)
  {
    |xs| >= 1 && forall k :: 0 <= k < |xs| ==> !Contains(xs[k], IDENTIFIER_SEPARATOR)
  }

  lemma SegmentsRecoverable(xs: seq<string>)
    ensures PlainSegments(xs) ==> Split(Join(xs, IDENTIFIER_SEPARATOR), IDENTIFIER_SEPARATOR) == xs
  {
    if PlainSegments(xs) {
      SeparatorUnbordered();
      SplitJoin(xs, IDENTIFIER_SEPARATOR);
    }
  }

  /**
   * `Base.clean_identifier`: a list identifier becomes its segments joined by
   * `%2F`; anything else is returned unchanged. Splitting the result on `%2F`
   * gives the segments back whenever none of them contains `%2F` itself.
   */
  function CleanIdentifier(v: Value): (r: Value)
    ensures !r.List?
    ensures !v.List? ==> r == v
    ensures v.List? ==> r == Str(Join(v.items, IDENTIFIER_SEPARATOR))
    ensures v.List? && v.items == [] ==> r == Str("")
    ensures v.List? && PlainSegments(v.items) ==> Split(r.s, IDENTIFIER_SEPARATOR) == v.items
  {
    match v
    case List(xs) =>
      SegmentsRecoverable(xs);
      Str(Join(xs, IDENTIFIER_SEPARATOR))
    case _ => v
  }

  /** `["a", "b"]` becomes `a%2Fb`. */
  lemma CleanTwoSegments()
    ensures CleanIdentifier(List(["a", "b"])) == Str("a%2Fb")
  {
    JoinPair("a", "b", IDENTIFIER_SEPARATOR);
    assert "a" + IDENTIFIER_SEPARATOR + "b" == "a%2Fb";
  }

  /** The empty list becomes the empty string. */
  lemma CleanNoSegments()
    ensures CleanIdentifier(List([])) == Str("")
  {
  }

  /** A segment that already holds `%2F` is joined as is. */
  lemma CleanSegmentWithSeparator()
    ensures CleanIdentifier(List(["a%2F", "b"])) == Str("a%2F%2Fb")
  {
    JoinPair("a%2F", "b", IDENTIFIER_SEPARATOR);
    assert "a%2F" + IDENTIFIER_SEPARATOR + "b" == "a%2F%2Fb";
  }

  /** Cleaning an already clean identifier changes nothing. */
  lemma CleanIdentifierIdempotent(v: Value)
    ensures CleanIdentifier(CleanIdentifier(v)) == CleanIdentifier(v)
  {
  }

  /**
   * The parameter preparation at the top of `make_request`: `format` defaults
   * to `json` when absent, `id` is cleaned, then every `None` is dropped.
   */
  function Prepare(p: ParamMap): (r: ParamMap)
    ensures forall k :: k in r ==> r[k] != Null
    ensures FORMAT in r <==> FORMAT !in p || p[FORMAT] != Null
    ensures FORMAT !in p ==> r[FORMAT] == DEFAULT_FORMAT
    ensures FORMAT in p && p[FORMAT] != Null ==> r[FORMAT] == p[FORMAT]
    ensures ID in r <==> ID in p && p[ID] != Null
    ensures ID in r ==> !r[ID].List? && r[ID] == CleanIdentifier(p[ID])
    ensures forall k :: k != FORMAT && k != ID ==> (k in r <==> k in p && p[k] != Null)
    ensures forall k :: k != FORMAT && k != ID && k in r ==> r[k] == p[k]
  {
    var withFormat := if FORMAT in p then p else p[FORMAT := DEFAULT_FORMAT];
    var cleaned := if ID in withFormat then withFormat[ID := CleanIdentifier(withFormat[ID])] else withFormat;
    RemoveEmpty(cleaned)
  }

  /**
   * Preparing prepared parameters again gives the same map, except when the
   * caller passed `format=None`: that key is dropped the first time and the
   * second pass puts the `json` default back.
   */
  lemma PrepareIdempotent(p: ParamMap)
    ensures Prepare(Prepare(p)) == Prepare(p) <==> !(FORMAT in p && p[FORMAT] == Null)
  {
    var q := Prepare(p);
    if !(FORMAT in p && p[FORMAT] == Null) {
      assert Prepare(q).Keys == q.Keys;
      forall k | k in q
        ensures Prepare(q)[k] == q[k]
      {
        if k == ID {
          CleanIdentifierIdempotent(p[ID]);
        }
      }
    } else {
      assert FORMAT !in q;
      assert FORMAT in Prepare(q);
    }
  }
}
