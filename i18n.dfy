/** Translatable text (`I18nText`): either a plain string or a translation
    key with named parameters, whose values may themselves be translatable.
    The translation function `t` of i18next is a parameter of every member
    that needs it; nothing is assumed about it. */
module I18n {
  import opened Wrappers

  /** A plain display string, or `{ key, params? }`. */
  datatype I18nText = Plain(str: string) | Keyed(key: string, params: Params)

  /** The optional `params` record: absent (`undefined`) or a record. */
  datatype Params = Absent | Record(entries: map<string, Param>)

  /** A value allowed in `params`: `I18nText | string | number | boolean | null | undefined`.
      A plain string is `Text(Plain(s))`. */
  datatype Param = Text(text: I18nText) | Num(n: real) | Bool(b: bool) | Null | Undefined

  /** A value as handed to `t`: translated strings and the values passed through. */
  datatype Arg = AStr(s: string) | ANum(n: real) | ABool(b: bool) | ANull | AUndefined

  /** i18next's `t(key, options)`. */
  type Translator = (string, Option<map<string, Arg>>) -> string

  /** `isI18nText`: a truthy object with a `key` property. Among parameter
      values only a keyed text is one; strings, numbers, booleans and
      `null`/`undefined` are not. */
  predicate IsI18nText(p: Param) {
    p.Text? && p.text.Keyed?
  }

  /** A parameter value that is not translated, as `t` receives it. */
  function PassThrough(p: Param): (a: Arg)
    requires !IsI18nText(p)
  {
    match p
    case Text(Plain(s)) => AStr(s)
    case Num(n) => ANum(n)
    case Bool(b) => ABool(b)
    case Null => ANull
    case Undefined => AUndefined
  }

  /** `resolveI18nParams(t, params)`: absent params stay absent; otherwise every
      key is kept, a nested translatable value is replaced by its translation
      and every other value is passed through unchanged. */
  function ResolveI18nParams(t: Translator, params: Params): (r: Option<map<string, Arg>>)
    ensures r.None? <==> params.Absent?
    ensures params.Record? ==> r.value.Keys == params.entries.Keys
    ensures params.Record? ==> forall k :: k in params.entries && !IsI18nText(params.entries[k]) ==>
              r.value[k] == PassThrough(params.entries[k])
    ensures params.Record? ==> forall k :: k in params.entries && IsI18nText(params.entries[k]) ==>
              r.value[k].AStr? && r.value[k].s == t(params.entries[k].text.key,
                                                    ResolveI18nParams(t, params.entries[k].text.params))
    decreases params
  {
    match params
    case Absent => None
    case Record(m) => Some(map k | k in m :: ResolveParam(t, m[k]))
  }

  /** One parameter value: a keyed text is translated with its own resolved
      params, anything else is passed through; text of either kind becomes a string. */
  function ResolveParam(t: Translator, p: Param): (a: Arg)
    ensures IsI18nText(p) ==> a == AStr(t(p.text.key, ResolveI18nParams(t, p.text.params)))
    ensures !IsI18nText(p) ==> a == PassThrough(p)
    ensures a.AStr? <==> p.Text?
    decreases p
  {
    match p
    case Text(Keyed(key, ps)) => AStr(t(key, ResolveI18nParams(t, ps)))
    case _ => PassThrough(p)
  }

  /** `asText(t, v)`: no value gives "", a plain string is returned as it is,
      and a keyed text is the translation of its key with resolved params. */
  function AsText(t: Translator, v: Option<I18nText>): (r: string)
    ensures v.None? ==> r == ""
    ensures v.Some? && v.value.Plain? ==> r == v.value.str
    ensures v.Some? && v.value.Keyed? ==> r == t(v.value.key, ResolveI18nParams(t, v.value.params))
  {
    match v
    case None => ""
    case Some(Plain(s)) => s
    case Some(Keyed(key, ps)) => t(key, ResolveI18nParams(t, ps))
  }

  /** Every translation key that resolving a text asks `t` about. */
  function TextKeys(v: I18nText): set<string>
    decreases v
  {
    match v
    case Plain(_) => {}
    case Keyed(key, ps) => {key} + ParamsKeys(ps)
  }

  function ParamsKeys(ps: Params): set<string>
    decreases ps
  {
    match ps
    case Absent => {}
    case Record(m) => set k, key | k in m && key in ParamKeys(m[k]) :: key
  }

  function ParamKeys(p: Param): set<string>
    decreases p
  {
    match p
    case Text(v) => TextKeys(v)
    case _ => {}
  }

  /** Two translators that agree on a set of keys. */
  ghost predicate AgreeOn(t1: Translator, t2: Translator, keys: set<string>) {
    forall k, args :: k in keys ==> t1(k, args) == t2(k, args)
  }

  /** Resolution consults `t` only for the keys that occur in the text:
      translators that agree on those keys give the same string. In
      particular a plain string never depends on `t`. */
  lemma {:induction false} AsTextLocal(t1: Translator, t2: Translator, v: I18nText)
    requires AgreeOn(t1, t2, TextKeys(v))
    ensures AsText(t1, Some(v)) == AsText(t2, Some(v))
  {
    match v
    case Plain(_) =>
    case Keyed(key, ps) =>
      ResolveLocal(t1, t2, ps);
  }

  lemma {:induction false} ResolveLocal(t1: Translator, t2: Translator, ps: Params)
    requires AgreeOn(t1, t2, ParamsKeys(ps))
    ensures ResolveI18nParams(t1, ps) == ResolveI18nParams(t2, ps)
    decreases ps
  {
    match ps
    case Absent =>
    case Record(m) =>
      forall k | k in m
        ensures ResolveParam(t1, m[k]) == ResolveParam(t2, m[k])
      {
        assert ParamKeys(m[k]) <= ParamsKeys(ps);
        ResolveParamLocal(t1, t2, m[k]);
      }
      assert (map k | k in m :: ResolveParam(t1, m[k])) == (map k | k in m :: ResolveParam(t2, m[k]));
  }

  lemma {:induction false} ResolveParamLocal(t1: Translator, t2: Translator, p: Param)
    requires AgreeOn(t1, t2, ParamKeys(p))
    ensures ResolveParam(t1, p) == ResolveParam(t2, p)
    decreases p
  {
    match p
    case Text(Keyed(key, ps)) =>
      assert ParamKeys(p) == {key} + ParamsKeys(ps);
      ResolveLocal(t1, t2, ps);
      var args := ResolveI18nParams(t1, ps);
      assert t1(key, args) == t2(key, args);
    case _ =>
  }
}
