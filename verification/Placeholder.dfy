/** The tracer that rewrites placeholders and remembers the missing ones. */
module Placeholder {
  import opened Common
  import opened Text

  /** What Tracer.Err reports. */
  datatype TraceError = TraceError(missing: set<string>, misc: seq<string>)

  class Tracer {
    var missing: set<string>
    var miscErrors: seq<string>

    constructor ()
      ensures missing == {} && miscErrors == []
    {
      missing, miscErrors := {}, [];
    }

    /** Replaces the first occurrence; a content without one is returned as it is and reported. */
    method Replace(content: string, placeholder: string, replacement: string) returns (r: string)
      requires placeholder != ""
      modifies this`missing
      ensures r == ReplaceFirst(content, placeholder, replacement)
      ensures missing == old(missing) + (if Count(content, placeholder) == 0 then {placeholder} else {})
    {
      if Count(content, placeholder) == 0 {
        missing := missing + {placeholder};
        return content;
      }
      ReplaceFirstIsReplace(content, placeholder, replacement);
      return Text.Replace(content, placeholder, replacement, 1);
    }

    method ReplaceAll(content: string, placeholder: string, replacement: string) returns (r: string)
      requires placeholder != ""
      modifies this`missing
      ensures r == Text.ReplaceAll(content, placeholder, replacement)
      ensures missing == old(missing) + (if Count(content, placeholder) == 0 then {placeholder} else {})
    {
      if Count(content, placeholder) == 0 {
        missing := missing + {placeholder};
        return content;
      }
      return Text.ReplaceAll(content, placeholder, replacement);
    }

    /** Replaces only when the replacement is not there yet. */
    method ReplaceOnce(content: string, placeholder: string, replacement: string) returns (r: string)
      requires placeholder != "" && replacement != ""
      modifies this`missing
      ensures Count(content, replacement) > 0 ==> r == content && missing == old(missing)
      ensures Count(content, replacement) == 0 ==>
        r == ReplaceFirst(content, placeholder, replacement)
        && missing == old(missing) + (if Count(content, placeholder) == 0 then {placeholder} else {})
    {
      if Index(content, replacement) < 0 {
        r := Replace(content, placeholder, replacement);
      } else {
        r := content;
      }
    }

    method AppendMiscError(err: string)
      modifies this`miscErrors
      ensures miscErrors == old(miscErrors) + [err]
    {
      miscErrors := miscErrors + [err];
    }

    /** Nothing is reported if and only if no placeholder was missing and no other error was recorded. */
    method Err() returns (err: Option<TraceError>)
      ensures err.None? <==> missing == {} && miscErrors == []
      ensures err.Some? ==> err.value == TraceError(missing, miscErrors)
    {
      if missing != {} || |miscErrors| > 0 {
        return Some(TraceError(missing, miscErrors));
      }
      return None;
    }
  }

  /** ReplaceOnce is idempotent: after it the replacement is there, so a second call changes nothing,
      provided the placeholder was found. */
  lemma OnceThenPresent(content: string, placeholder: string, replacement: string)
    requires placeholder != "" && replacement != "" && Count(content, placeholder) > 0
    ensures Count(ReplaceFirst(content, placeholder, replacement), replacement) > 0
  {
    var x, y := FoundSplit(content, placeholder);
    FirstOccurrence(x, placeholder, y, replacement);
    assert At(replacement, replacement, 0);
    CountPart(x, replacement, y, replacement);
  }
}
