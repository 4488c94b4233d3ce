/** The logging context store: one process-wide filter holds a dictionary of
    context pairs that it copies onto every log record passing through any
    logger configured with it. Attribute and context values are modelled as
    `Json.Value`, with `Null` standing for Python's None. */
module Logger {
  import opened Json

  /** `dict.update`: every given pair is written, every other key keeps its
      value. */
  function Merge(context: map<string, Value>, pairs: map<string, Value>): (r: map<string, Value>)
    ensures r.Keys == context.Keys + pairs.Keys
    ensures forall k :: k in pairs ==> r[k] == pairs[k]
    ensures forall k :: k in context && k !in pairs ==> r[k] == context[k]
  {
    context + pairs
  }

  /** Deleting the listed keys one after the other, skipping those that are
      not present. */
  function Remove(context: map<string, Value>, keys: seq<string>): (r: map<string, Value>)
    ensures forall k :: k in r <==> k in context && k !in keys
    ensures forall k :: k in r ==> r[k] == context[k]
    decreases |keys|
  {
    if keys == [] then context
    else
      var rest := Remove(context, keys[..|keys| - 1]);
      var last := keys[|keys| - 1];
      if last in rest then rest - {last} else rest
  }

  /** The value an attribute has after the filter has seen one context
      pair: written when the record lacks it or holds something other than
      None; an attribute that is already None stays None. */
  function AttrAfter(attrs: map<string, Value>, key: string, value: Value): Value {
    if key !in attrs || attrs[key] != Null then value else Null
  }

  /** The attributes of a record after the filter has applied every context
      pair. */
  function Filtered(attrs: map<string, Value>, context: map<string, Value>): (r: map<string, Value>)
    ensures r.Keys == attrs.Keys + context.Keys
  {
    map k | k in attrs.Keys + context.Keys ::
      if k in context then AttrAfter(attrs, k, context[k]) else attrs[k]
  }

  /** The filter writes only attributes named by a context key, never
      replaces a None attribute, and otherwise leaves a context key's value
      on the record. */
  lemma FilterRule(attrs: map<string, Value>, context: map<string, Value>)
    ensures var r := Filtered(attrs, context);
            && (forall k :: k !in context ==> (k in r <==> k in attrs))
            && (forall k :: k in attrs && k !in context ==> r[k] == attrs[k])
            && (forall k :: k in attrs && attrs[k] == Null ==> r[k] == Null)
            && (forall k :: k in context && (k !in attrs || attrs[k] != Null) ==> r[k] == context[k])
  {
  }

  /** Filtering twice with the same context is the same as filtering once. */
  lemma FilterIdempotent(attrs: map<string, Value>, context: map<string, Value>)
    ensures Filtered(Filtered(attrs, context), context) == Filtered(attrs, context)
  {
    var once := Filtered(attrs, context);
    var twice := Filtered(once, context);
    assert twice.Keys == once.Keys;
    forall k | k in once
      ensures twice[k] == once[k]
    {
      if k in context {
        if k in attrs && attrs[k] == Null {
          assert once[k] == Null;
        } else {
          assert once[k] == context[k];
        }
      }
    }
  }

  /** Filtered is determined pointwise: a map that agrees with the filter
      rule on every key is the filtered map. */
  lemma FilteredPointwise(attrs: map<string, Value>, context: map<string, Value>, r: map<string, Value>)
    requires PartlyFiltered(r, attrs, context, context.Keys)
    ensures r == Filtered(attrs, context)
  {
  }

  /** The attributes after the filter has applied the context pairs whose
      keys are in `done`. */
  ghost predicate PartlyFiltered(attrs: map<string, Value>, attrs0: map<string, Value>,
                                 context: map<string, Value>, done: set<string>)
  {
    && done <= context.Keys
    && attrs.Keys == attrs0.Keys + done
    && (forall k :: k in done ==> attrs[k] == AttrAfter(attrs0, k, context[k]))
    && (forall k :: k in attrs0 && k !in done ==> attrs[k] == attrs0[k])
  }

  /** One iteration of the filter loop extends the applied keys by one. */
  lemma FilterStep(before: map<string, Value>, after: map<string, Value>, attrs0: map<string, Value>,
                   context: map<string, Value>, done: set<string>, key: string)
    requires PartlyFiltered(before, attrs0, context, done)
    requires key in context && key !in done
    requires after == if key !in before || before[key] != Null then before[key := context[key]] else before
    ensures PartlyFiltered(after, attrs0, context, done + {key})
  {
  }

  /** A log record: its attributes by name. */
  class LogRecord {
    var attrs: map<string, Value>

    constructor (attrs: map<string, Value>)
      ensures this.attrs == attrs
    {
      this.attrs := attrs;
    }
  }

  /** `ContextFilter`: a logging filter carrying the context dictionary. */
  class ContextFilter {
    var context: map<string, Value>

    constructor ()
      ensures context == map[]
    {
      context := map[];
    }

    /** `update_context(**kwargs)`: merge the pairs into the context. */
    method UpdateContext(pairs: map<string, Value>)
      modifies this
      ensures context == Merge(old(context), pairs)
    {
      context := context + pairs;
    }

    /** `filter(record)`: copy each context pair onto the record under the
        None-preserving rule; the record always passes. */
    method Filter(record: LogRecord) returns (pass: bool)
      modifies record
      ensures pass
      ensures record.attrs == Filtered(old(record.attrs), context)
    {
      var ctx := context;
      var todo := ctx.Keys;
      ghost var done: set<string> := {};
      var attrs := record.attrs;
      ghost var attrs0 := attrs;
      while todo != {}
        invariant todo <= ctx.Keys
        invariant forall k :: k in ctx ==> (k in done <==> k !in todo)
        invariant PartlyFiltered(attrs, attrs0, ctx, done)
        decreases |todo|
      {
        var key :| key in todo;
        assert key in ctx && key !in done;
        ghost var before := attrs;
        if key !in attrs || attrs[key] != Null {
          attrs := attrs[key := ctx[key]];
        }
        FilterStep(before, attrs, attrs0, ctx, done, key);
        todo := todo - {key};
        done := done + {key};
      }
      assert done == ctx.Keys;
      FilteredPointwise(attrs0, ctx, attrs);
      record.attrs := attrs;
      pass := true;
    }
  }

  /** `add_log_context(**kwargs)`: merge into the process-wide filter. */
  method AddLogContext(shared: ContextFilter, pairs: map<string, Value>)
    modifies shared
    ensures shared.context == Merge(old(shared.context), pairs)
  {
    shared.UpdateContext(pairs);
  }

  /** `remove_log_context(*keys)`: delete each listed key that is present. */
  method RemoveLogContext(shared: ContextFilter, keys: seq<string>)
    modifies shared
    ensures shared.context == Remove(old(shared.context), keys)
  {
    var i := 0;
    while i < |keys|
      invariant 0 <= i <= |keys|
      invariant shared.context == Remove(old(shared.context), keys[..i])
    {
      assert keys[..i + 1][..i] == keys[..i];
      if keys[i] in shared.context {
        shared.context := shared.context - {keys[i]};
      }
      i := i + 1;
    }
    assert keys[..|keys|] == keys;
  }

  /** Adding a key and then removing it leaves it absent and every other key
      as the merge left it. */
  lemma AddThenRemove(context: map<string, Value>, pairs: map<string, Value>, key: string)
    requires key in pairs
    ensures var r := Remove(Merge(context, pairs), [key]);
            && key !in r
            && forall k :: k != key && k in Merge(context, pairs) ==> k in r && r[k] == Merge(context, pairs)[k]
  {
  }

  /** Removing keys that are all absent is harmless. */
  lemma RemoveAbsentKeys(context: map<string, Value>, keys: seq<string>)
    requires forall i :: 0 <= i < |keys| ==> keys[i] !in context
    ensures Remove(context, keys) == context
  {
    assert Remove(context, keys).Keys == context.Keys;
  }

  const Info: int := 20

  /** A named logger and the filters attached to it. */
  class Logger {
    const name: string
    var level: int
    var filters: seq<ContextFilter>

    constructor (name: string)
      ensures this.name == name && level == 0 && filters == []
    {
      this.name := name;
      level := 0;
      filters := [];
    }

    /** The filter part of `get_logger`: set INFO and attach the shared
        filter, which `addFilter` does not attach twice. */
    method Configure(shared: ContextFilter)
      modifies this
      ensures level == Info
      ensures shared in filters
      ensures old(shared in filters) ==> filters == old(filters)
      ensures !old(shared in filters) ==> filters == old(filters) + [shared]
    {
      level := Info;
      if shared !in filters {
        filters := filters + [shared];
      }
    }
  }

  /** Usage example: two loggers obtained through `get_logger` both carry
      the one process-wide filter, so a pair added through `add_log_context`
      reaches the records of both. */
  method SharedContext(a: Logger, b: Logger, shared: ContextFilter, pairs: map<string, Value>)
    modifies a, b, shared
    ensures shared in a.filters && shared in b.filters
    ensures shared.context == Merge(old(shared.context), pairs)
  {
    a.Configure(shared);
    b.Configure(shared);
    AddLogContext(shared, pairs);
  }
}
