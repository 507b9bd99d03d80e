/** The build error-code table and the missing-field error (common/src/errors.rs).
    The table is built once from a JSON document; instead of a process-wide
    lazily initialised map, the built map is a value passed to the lookup. */
module Errors {
  import opened Types
  import opened Common

  const I64Min: int := -0x8000_0000_0000_0000
  const I64Max: int := 0x7fff_ffff_ffff_ffff

  const UnknownError: string := "Unknown error"

  /** A JSON member value, reduced to what the table reads from it. */
  datatype JsonValue = JsonString(text: string) | JsonNonString

  /** A parsed JSON document: an object's members in iteration order, or anything else. */
  datatype JsonDocument = JsonObject(members: seq<(string, JsonValue)>) | JsonNonObject

  /** `str::parse::<i64>`: an optional `+` or `-`, then at least one ASCII
      digit and nothing else, and a value within the i64 range. */
  function ParseI64(s: string): (r: Option<int>)
    ensures r.Some? ==> I64Min <= r.value <= I64Max
    ensures r.Some? ==> |s| >= 1 && (IsDigit(s[0]) || s[0] == '+' || s[0] == '-')
  {
    if |s| == 0 then None
    else
      var digits := if s[0] == '+' || s[0] == '-' then s[1..] else s;
      if |digits| == 0 || !AllDigits(digits) then None
      else
        var v: int := if s[0] == '-' then -(DecimalValue(digits) as int) else DecimalValue(digits);
        if I64Min <= v <= I64Max then Some(v) else None
  }

  /** The decimal text of an integer, with a leading `-` when it is negative. */
  function IntToString(n: int): string {
    if n < 0 then "-" + Decimal(-n) else Decimal(n)
  }

  /** Every i64 reads back from its own decimal text. */
  lemma ParseI64RoundTrip(n: int)
    requires I64Min <= n <= I64Max
    ensures ParseI64(IntToString(n)) == Some(n)
  {
    if n < 0 {
      ParseNegative(n);
    } else {
      ParseNonNegative(n);
    }
  }

  /** A negative i64's text is `-` and the digits of its magnitude, and parses back. */
  lemma ParseNegative(n: int)
    requires I64Min <= n < 0
    ensures ParseI64(IntToString(n)) == Some(n)
  {
    var digits := Decimal(-n);
    var s := IntToString(n);
    assert s == ['-'] + digits;
    assert s[0] == '-' && s[1..] == digits;
    assert |digits| != 0 && AllDigits(digits);
    DecimalRoundTrip(-n);
    assert -(DecimalValue(digits) as int) == n;
  }

  /** A non-negative i64's text is its digits alone, and parses back. */
  lemma ParseNonNegative(n: int)
    requires 0 <= n <= I64Max
    ensures ParseI64(IntToString(n)) == Some(n)
  {
    var digits := Decimal(n);
    assert IntToString(n) == digits;
    assert IsDigit(digits[0]);
    DecimalRoundTrip(n);
  }

  /** The code a member's key is stored under: the parsed key, or -1. */
  function CodeOf(key: string): (code: int)
    ensures ParseI64(key).None? ==> code == -1
    ensures ParseI64(key).Some? ==> code == ParseI64(key).value
  {
    ParseI64(key).GetOr(-1)
  }

  /** The description a member's value is stored as: the string, or "". */
  function DescriptionOf(v: JsonValue): (d: string)
    ensures v.JsonString? ==> d == v.text
    ensures v.JsonNonString? ==> d == ""
  {
    if v.JsonString? then v.text else ""
  }

  /** The table after inserting the members in order; a later member wins. */
  function ErrorMapOf(members: seq<(string, JsonValue)>): map<int, string>
    decreases |members|
  {
    if members == [] then map[]
    else
      var last := members[|members| - 1];
      ErrorMapOf(members[..|members| - 1])[CodeOf(last.0) := DescriptionOf(last.1)]
  }

  /** `create_error_map`: a loop inserting every member of an object document;
      any other document gives the empty table. */
  method CreateErrorMap(doc: JsonDocument) returns (table: map<int, string>)
    ensures doc.JsonNonObject? ==> table == map[]
    ensures doc.JsonObject? ==> table == ErrorMapOf(doc.members)
  {
    table := map[];
    if doc.JsonObject? {
      var members := doc.members;
      var i := 0;
      while i < |members|
        invariant 0 <= i <= |members|
        invariant table == ErrorMapOf(members[..i])
      {
        var (key, value) := members[i];
        var code := CodeOf(key);
        var description := DescriptionOf(value);
        assert members[..i + 1][..i] == members[..i];
        table := table[code := description];
        i := i + 1;
      }
      assert members[..i] == members;
    }
  }

  /** The table's codes are exactly the codes of the members' keys. */
  lemma {:induction false} ErrorMapKeys(members: seq<(string, JsonValue)>, code: int)
    ensures code in ErrorMapOf(members) <==> exists i :: 0 <= i < |members| && CodeOf(members[i].0) == code
    decreases |members|
  {
    if members != [] {
      var init := members[..|members| - 1];
      ErrorMapKeys(init, code);
      if code in ErrorMapOf(init) {
        var i :| 0 <= i < |init| && CodeOf(init[i].0) == code;
        assert members[i] == init[i];
      }
      if exists i :: 0 <= i < |members| && CodeOf(members[i].0) == code {
        var i :| 0 <= i < |members| && CodeOf(members[i].0) == code;
        if i < |init| {
          assert init[i] == members[i];
        }
      }
    }
  }

  /** The description stored under a code is the one of the LAST member whose key gives that code. */
  lemma {:induction false} ErrorMapLastWins(members: seq<(string, JsonValue)>, j: nat)
    requires j < |members|
    requires forall k :: j < k < |members| ==> CodeOf(members[k].0) != CodeOf(members[j].0)
    ensures CodeOf(members[j].0) in ErrorMapOf(members)
    ensures ErrorMapOf(members)[CodeOf(members[j].0)] == DescriptionOf(members[j].1)
    decreases |members|
  {
    if j < |members| - 1 {
      var init := members[..|members| - 1];
      assert init[j] == members[j];
      ErrorMapLastWins(init, j);
    }
  }

  /** `get_error_descriptions`: the stored description, or "Unknown error". */
  function ErrorDescription(table: map<int, string>, code: int): (d: string)
    ensures code in table ==> d == table[code]
    ensures code !in table ==> d == UnknownError
  {
    if code in table then table[code] else UnknownError
  }

  /** Looking a code up in the table built from a document: "Unknown error"
      exactly when no member's key gives that code, otherwise the description
      of the last member whose key gives it. */
  lemma DescriptionFromDocument(members: seq<(string, JsonValue)>, code: int)
    ensures (forall i :: 0 <= i < |members| ==> CodeOf(members[i].0) != code) ==>
      ErrorDescription(ErrorMapOf(members), code) == UnknownError
    ensures forall j ::
      (0 <= j < |members| && CodeOf(members[j].0) == code
       && (forall k :: j < k < |members| ==> CodeOf(members[k].0) != code)) ==>
      ErrorDescription(ErrorMapOf(members), code) == DescriptionOf(members[j].1)
  {
    ErrorMapKeys(members, code);
    forall j | 0 <= j < |members| && CodeOf(members[j].0) == code
      && (forall k :: j < k < |members| ==> CodeOf(members[k].0) != code)
      ensures ErrorDescription(ErrorMapOf(members), code) == DescriptionOf(members[j].1)
    {
      ErrorMapLastWins(members, j);
    }
  }

  /** Two keys that are not numbers both land on code -1; the later description wins. */
  lemma UnparseableKeysCollide(a: string, b: string, da: JsonValue, db: JsonValue)
    requires ParseI64(a).None? && ParseI64(b).None?
    ensures ErrorMapOf([(a, da), (b, db)]) == map[-1 := DescriptionOf(db)]
  {
    assert [(a, da), (b, db)][..1] == [(a, da)];
    assert [(a, da)][..0] == [];
    assert ErrorMapOf([(a, da)]) == map[-1 := DescriptionOf(da)];
  }

  const MissingFieldPrefix: string := "Field '"
  const MissingFieldSuffix: string := "' is missing"

  /** The Display text of `MissingFieldError`: the field name between a fixed
      prefix and suffix, from which the name can be read back. */
  function MissingFieldMessage(fieldName: string): (msg: string)
    ensures |msg| == |MissingFieldPrefix| + |fieldName| + |MissingFieldSuffix|
    ensures msg[..|MissingFieldPrefix|] == MissingFieldPrefix
    ensures msg[|msg| - |MissingFieldSuffix|..] == MissingFieldSuffix
    ensures msg[|MissingFieldPrefix|..|msg| - |MissingFieldSuffix|] == fieldName
  {
    MissingFieldPrefix + fieldName + MissingFieldSuffix
  }
}
