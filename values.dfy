/** Values the release command line works with: what the argument parser
    delivers for one option, JavaScript truthiness and string interpolation
    of such a value, and the absolute paths that `path.resolve` yields. */
module Values {

  datatype Option<+T> = None | Some(value: T)

  /** One option value after argument parsing: a string, or a boolean for a
      flag given without a value. */
  datatype ArgValue = Str(s: string) | Bool(b: bool)

  /** JavaScript truthiness of an option that may be unset. */
  predicate Truthy(v: Option<ArgValue>) {
    match v
    case None => false
    case Some(Str(s)) => s != ""
    case Some(Bool(b)) => b
  }

  /** `check.unemptyString`: a string with at least one character. */
  predicate UnemptyString(v: Option<ArgValue>) {
    v.Some? && v.value.Str? && v.value.s != ""
  }

  /** How a template literal renders an option that may be unset. */
  function Show(v: Option<ArgValue>): string {
    match v
    case None => "undefined"
    case Some(Str(s)) => s
    case Some(Bool(b)) => if b then "true" else "false"
  }

  predicate IsAbsolute(p: string) {
    |p| > 0 && p[0] == '/'
  }

  /** `path.resolve(p)` against the working directory `cwd`: an absolute
      path is kept, the empty path is the directory itself, and a relative
      path is joined below it (removal of `.` and `..` segments is not
      modelled). */
  function Resolve(cwd: string, p: string): (r: string)
    requires IsAbsolute(cwd)
    ensures IsAbsolute(r)
    ensures IsAbsolute(p) ==> r == p
    ensures !IsAbsolute(p) && p != "" ==> |r| > |p| && r[|r| - |p|..] == p
  {
    if IsAbsolute(p) then p
    else if p == "" then cwd
    else cwd + "/" + p
  }

  /** Resolving a path a second time changes nothing. */
  lemma ResolveIdempotent(cwd: string, p: string)
    requires IsAbsolute(cwd)
    ensures Resolve(cwd, Resolve(cwd, p)) == Resolve(cwd, p)
  {
  }
}
