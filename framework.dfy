/**
 * The pieces of the Terraform plugin framework that the provider's logic
 * touches: three-valued configuration strings and error diagnostics collected
 * on a response. Schemas, state encoding and logging are not modelled.
 */
module Framework {
  import opened Wrappers

  /** types.String: a configuration value that is null, not yet known, or a known string. */
  datatype StringValue = Null | Unknown | Known(text: string) {

    /** ValueString: the text of a known value, and "" for a null or unknown one. */
    function ValueString(): string {
      if Known? then text else ""
    }
  }

  datatype Severity = SeverityError | SeverityWarning

  /** A diagnostic: severity, the attribute path it is attached to (if any), summary and detail. */
  datatype Diagnostic = Diagnostic(severity: Severity, attribute: Option<string>, summary: string, detail: string)

  function AttributeError(path: string, summary: string, detail: string): Diagnostic {
    Diagnostic(SeverityError, Some(path), summary, detail)
  }

  function PlainError(summary: string, detail: string): Diagnostic {
    Diagnostic(SeverityError, None, summary, detail)
  }

  /** Diagnostics.HasError: some diagnostic in the list is an error. */
  predicate ContainsError(ds: seq<Diagnostic>) {
    exists i :: 0 <= i < |ds| && ds[i].severity == SeverityError
  }

  /** A list has an error exactly when one of its two halves has one. */
  lemma ContainsErrorAppend(a: seq<Diagnostic>, b: seq<Diagnostic>)
    ensures ContainsError(a + b) <==> ContainsError(a) || ContainsError(b)
  {
    if ContainsError(a) {
      var i :| 0 <= i < |a| && a[i].severity == SeverityError;
      assert (a + b)[i] == a[i];
    }
    if ContainsError(b) {
      var i :| 0 <= i < |b| && b[i].severity == SeverityError;
      assert (a + b)[|a| + i] == b[i];
    }
    if ContainsError(a + b) {
      var i :| 0 <= i < |a + b| && (a + b)[i].severity == SeverityError;
      if i < |a| {
        assert a[i] == (a + b)[i];
      } else {
        assert b[i - |a|] == (a + b)[i];
      }
    }
  }

  /** The diagnostics a framework response collects; errors are appended and never removed. */
  class Diagnostics {
    var items: seq<Diagnostic>

    constructor ()
      ensures items == []
    {
      items := [];
    }

    predicate HasError()
      reads this
    {
      ContainsError(items)
    }

    method AddAttributeError(path: string, summary: string, detail: string)
      modifies this
      ensures items == old(items) + [AttributeError(path, summary, detail)]
    {
      items := items + [AttributeError(path, summary, detail)];
    }

    method AddError(summary: string, detail: string)
      modifies this
      ensures items == old(items) + [PlainError(summary, detail)]
    {
      items := items + [PlainError(summary, detail)];
    }

    method Append(ds: seq<Diagnostic>)
      modifies this
      ensures items == old(items) + ds
    {
      items := items + ds;
    }
  }
}
