/**
  Single events: under which name which number is counted, and which kinds of event count at all.
*/
module AuditExample {
  import opened Options
  import opened PythonText
  import opened AuditSanitizer
  import opened AuditBudget
  import opened AuditSummary

  /** Metadata of a model round with all its token fields. */
  function Tokens(input: int, cached: int, output: int, reasoning: int, written: int, model: string): Metadata {
    map["input_tokens" := Int(input), "cached_input_tokens" := Int(cached), "output_tokens" := Int(output),
        "reasoning_tokens" := Int(reasoning), "cache_write_tokens" := Int(written), "model" := Str(model)]
  }

  lemma FieldsFound(input: int, cached: int, output: int, reasoning: int, written: int, model: string)
    ensures
      var m := Tokens(input, cached, output, reasoning, written, model);
      && Field(m, "input_tokens") == Int(input) && Field(m, "output_tokens") == Int(output)
      && Field(m, "model") == Str(model)
  {
    NamesApart();
  }

  lemma OtherFieldsFound(input: int, cached: int, output: int, reasoning: int, written: int, model: string)
    ensures
      var m := Tokens(input, cached, output, reasoning, written, model);
      && Field(m, "cached_input_tokens") == Int(cached) && Field(m, "reasoning_tokens") == Int(reasoning)
      && Field(m, "cache_write_tokens") == Int(written)
  {
    NamesApart();
  }

  lemma NamesApart()
    ensures |"input_tokens"| == 12 && |"cached_input_tokens"| == 19 && |"output_tokens"| == 13
    ensures |"reasoning_tokens"| == 16 && |"cache_write_tokens"| == 18 && |"model"| == 5
  {
  }

  /** A model round, failed or not, counts once with each of its numbers, for its own trace alone. */
  lemma OneRound(failed: bool, input: int, cached: int, output: int, reasoning: int, written: int, model: string,
                 text: Value -> string)
    requires model != "" && text(Str(model)) == model
    ensures
      var kind := if failed then "model_round_failed" else "model_round";
      var m := Tokens(input, cached, output, reasoning, written, model);
      var e := Event("t", 1, kind, Dict(m));
      && UsageIn([e], {"t"}) == [input, cached, output, reasoning, written] && UsageIn([e], {"u"}) == [0, 0, 0, 0, 0]
      && CallsIn([e], {"t"}) == 1 && ToolsIn([e], {"t"}) == 0 && ModelIn([e], {"t"}, model, text) == 1
      && ChargedFor(Recorded(kind, m)) == input + output
  {
    hide Field, Tokens;
    FieldsFound(input, cached, output, reasoning, written, model);
    OtherFieldsFound(input, cached, output, reasoning, written, model);
    var kind := if failed then "model_round_failed" else "model_round";
    var m := Tokens(input, cached, output, reasoning, written, model);
    var e := Event("t", 1, kind, Dict(m));
    assert IsModelEvent(kind) && !IsToolCall(kind);
    assert [e][..0] == [];
    assert UsageOf(e) == [input, cached, output, reasoning, written];
  }

  /** A tool call counts as one, and its metadata not at all. */
  lemma OneToolCall(m: Metadata, model: string, text: Value -> string)
    ensures
      var e := Event("t", 1, "tool_call", Dict(m));
      && UsageIn([e], {"t"}) == [0, 0, 0, 0, 0] && CallsIn([e], {"t"}) == 0 && ToolsIn([e], {"t"}) == 1
      && ModelIn([e], {"t"}, model, text) == 0 && ChargedFor(Recorded("tool_call", m)) == 0
  {
    var e := Event("t", 1, "tool_call", Dict(m));
    assert !IsModelEvent("tool_call") && [e][..0] == [];
  }

  /** Background work has the prefix or is embedding; the assistant is none. */
  lemma Workloads(rest: string)
    ensures IsBackground("background_" + rest) && IsBackground("embedding") && !IsBackground("assistant_interactive")
  {
    assert ("background_" + rest)[..|"background_"|] == "background_";
    assert "assistant_interactive"[..11][0] == 'a' && "background_"[0] == 'b';
  }

  /** A round that names no model, or an empty one, counts for none. */
  lemma NoModelNamed(m: Metadata, model: string, text: Value -> string)
    requires "model" !in m || m["model"] in {Null, Str(""), Bool(false), Int(0)}
    ensures ModelIn([Event("t", 1, "model_round", Dict(m))], {"t"}, model, text) == 0
  {
    assert [Event("t", 1, "model_round", Dict(m))][..0] == [];
  }
}
