// The required-parameter check shared by the registry-based actions.
module ActionBase {
  import opened Wrappers
  import opened Json

  const MissingParamPrefix := "Missing required action param: "

  function MissingParam(key: string): string
  {
    MissingParamPrefix + key
  }

  /** RequiresParam.require: the stored value, unless it is missing, None, or (without allowEmpty) the empty string. */
  function Require(d: Dict, key: string, allowEmpty: bool): (r: Result<Value, string>)
    ensures r.Ok? <==> key in d && !d[key].Null? && (allowEmpty || d[key] != Str(""))
    ensures r.Ok? ==> r.value == d[key]
    ensures r.Err? ==> r.error == MissingParam(key)
  {
    if key !in d then Err(MissingParam(key))
    else if d[key].Null? then Err(MissingParam(key))
    else if !allowEmpty && d[key] == Str("") then Err(MissingParam(key))
    else Ok(d[key])
  }

  /** allowEmpty only ever turns a rejection of "" into success. */
  lemma AllowEmptyIsWeaker(d: Dict, key: string)
    ensures Require(d, key, false).Ok? ==> Require(d, key, true) == Require(d, key, false)
    ensures Require(d, key, true).Ok? && Require(d, key, false).Err? ==> d[key] == Str("")
  {
  }

  /** A value just stored under the key is what the check returns, unless it is None or "". */
  lemma RequireAfterStore(d: Dict, key: string, v: Value)
    requires !v.Null? && v != Str("")
    ensures Require(d[key := v], key, false) == Ok(v)
  {
  }
}
