/** Values as the plugin sees them: arbitrary JavaScript data that it mostly passes
    through, plus the few string predicates the file patterns are judged by. */
module Values {

  /** A JavaScript value. Numbers are modelled as integers. */
  datatype Json =
    | Undefined
    | Null
    | Bool(b: bool)
    | Num(n: int)
    | Str(s: string)
    | Obj(fields: map<string, Json>)

  datatype Option<T> = None | Some(value: T)

  /** A value, or the error a failed step raises. */
  datatype Result<T> = Ok(value: T) | Err(error: string)

  /** Property read `v[key]`: anything other than an object that owns `key` reads as undefined. */
  function Get(v: Json, key: string): Json
  {
    if v.Obj? && key in v.fields then v.fields[key] else Undefined
  }

  predicate EndsWith(s: string, suffix: string)
  {
    |suffix| <= |s| && s[|s| - |suffix|..] == suffix
  }

  predicate OccursAt(s: string, t: string, i: int)
  {
    0 <= i && i + |t| <= |s| && s[i..i + |t|] == t
  }

  /** `s` matches the regular expression `<dir>.*?<file>$`: `dir` occurs somewhere
      and `file` ends the string, not overlapping it. */
  ghost predicate DirThenFile(s: string, dir: string, file: string)
  {
    EndsWith(s, file) && exists i :: OccursAt(s, dir, i) && i + |dir| <= |s| - |file|
  }

  /** Two suffixes of one string: the shorter is a suffix of the longer. */
  lemma SharedSuffix(s: string, a: string, b: string)
    requires EndsWith(s, a)
    ensures EndsWith(s, b) ==> if |b| <= |a| then EndsWith(a, b) else EndsWith(b, a)
  {
  }
}
