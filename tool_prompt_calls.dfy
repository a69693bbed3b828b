/** The two calls the Llama tool prompt shows the model
    (src/services/AwsBedrockLlama3Service.ts), checked against the
    extraction pattern (src/utils/outputFormatAdapterUtils/convertLlamaToOpenAIStreamToolCall.ts). */
module ToolPromptCalls {
  import opened Wrappers
  import opened LlamaFunctionCall
  import opened LlamaService

  /** A text without `c` stays without it when extended by another. */
  lemma LacksAppend(a: string, b: string, c: char)
    requires Lacks(a, c) && Lacks(b, c)
    ensures Lacks(a + b, c)
  {
    forall i | 0 <= i < |a + b| ensures (a + b)[i] != c {
      if i < |a| {
        assert (a + b)[i] == a[i];
      } else {
        assert (a + b)[i] == b[i - |a|];
      }
    }
  }

  /** The call format as written holds no comma, so a generation that
      copies it yields no call. */
  lemma FormatAsWrittenYieldsNothing()
    ensures ParseFunctionCall(FORMAT_AS_WRITTEN).None?
  {
    var tail := "\n}\n</function>";
    LacksAppend(OPEN_TAG, "\n{\n", ',');
    LacksAppend(OPEN_TAG + "\n{\n", NAME_KEY, ',');
    LacksAppend(OPEN_TAG + "\n{\n" + NAME_KEY, " \"", ',');
    LacksAppend("the name of the function", " you want to call", ',');
    LacksAppend(OPEN_TAG + "\n{\n" + NAME_KEY + " \"", FORMAT_NAME, ',');
    LacksAppend(OPEN_TAG + "\n{\n" + NAME_KEY + " \"" + FORMAT_NAME, "\"\n", ',');
    LacksAppend(OPEN_TAG + "\n{\n" + NAME_KEY + " \"" + FORMAT_NAME + "\"\n", PARAMETERS_KEY, ',');
    LacksAppend(OPEN_TAG + "\n{\n" + NAME_KEY + " \"" + FORMAT_NAME + "\"\n" + PARAMETERS_KEY, " ", ',');
    LacksAppend("{\n  \"parameter_key\": ", "\"the value of the parameter\"\n  ", ',');
    LacksAppend("{\n  \"parameter_key\": " + "\"the value of the parameter\"\n  ", "}", ',');
    LacksAppend(OPEN_TAG + "\n{\n" + NAME_KEY + " \"" + FORMAT_NAME + "\"\n" + PARAMETERS_KEY + " ", FORMAT_ARGUMENTS, ',');
    LacksAppend(OPEN_TAG + "\n{\n" + NAME_KEY + " \"" + FORMAT_NAME + "\"\n" + PARAMETERS_KEY + " " + FORMAT_ARGUMENTS, tail, ',');
    NoCommaNoMatch(FORMAT_AS_WRITTEN);
  }

  /** The example call as written holds no comma, so a generation that
      copies it yields no call. */
  lemma ExampleAsWrittenYieldsNothing()
    ensures ParseFunctionCall(EXAMPLE_AS_WRITTEN).None?
  {
    var tail := "\n}\n\n</function>";
    LacksAppend(OPEN_TAG, "\n{\n", ',');
    LacksAppend(OPEN_TAG + "\n{\n", NAME_KEY, ',');
    LacksAppend(OPEN_TAG + "\n{\n" + NAME_KEY, " \"", ',');
    LacksAppend(OPEN_TAG + "\n{\n" + NAME_KEY + " \"", EXAMPLE_NAME, ',');
    LacksAppend(OPEN_TAG + "\n{\n" + NAME_KEY + " \"" + EXAMPLE_NAME, "\"\n", ',');
    LacksAppend(OPEN_TAG + "\n{\n" + NAME_KEY + " \"" + EXAMPLE_NAME + "\"\n", PARAMETERS_KEY, ',');
    LacksAppend(OPEN_TAG + "\n{\n" + NAME_KEY + " \"" + EXAMPLE_NAME + "\"\n" + PARAMETERS_KEY, " ", ',');
    LacksAppend("{\n  \"location\": \"Miami\"\n  ", "}", ',');
    LacksAppend(OPEN_TAG + "\n{\n" + NAME_KEY + " \"" + EXAMPLE_NAME + "\"\n" + PARAMETERS_KEY + " ", EXAMPLE_ARGUMENTS, ',');
    LacksAppend(OPEN_TAG + "\n{\n" + NAME_KEY + " \"" + EXAMPLE_NAME + "\"\n" + PARAMETERS_KEY + " " + EXAMPLE_ARGUMENTS, tail, ',');
    NoCommaNoMatch(EXAMPLE_AS_WRITTEN);
  }

  /** The corrected format, with the comma after the name and the closing
      brace against `</function>`, yields its name and its arguments. */
  lemma FormatYieldsItsCall()
    ensures ParseFunctionCall(FORMAT) == Some(FunctionCallMatch(FORMAT_NAME, FORMAT_ARGUMENTS))
  {
    var a1, a2 := "{\n  \"parameter_key\": ", "\"the value of the parameter\"\n  ";
    LacksAppend("the name of the function", " you want to call", '"');
    LacksAppend(a1, a2, '}');
    assert FORMAT_ARGUMENTS[..|FORMAT_ARGUMENTS| - 1] == a1 + a2;
    LoneBraceNoCloseTag(FORMAT_ARGUMENTS);
    CallTextParses(FORMAT_NAME, FORMAT_ARGUMENTS);
  }

  /** The corrected example yields `get_current_weather` and its arguments. */
  lemma ExampleYieldsItsCall()
    ensures ParseFunctionCall(EXAMPLE) == Some(FunctionCallMatch(EXAMPLE_NAME, EXAMPLE_ARGUMENTS))
  {
    var a := "{\n  \"location\": \"Miami\"\n  ";
    assert Lacks(EXAMPLE_NAME, '"');
    assert Lacks(a, '}');
    assert EXAMPLE_ARGUMENTS[..|EXAMPLE_ARGUMENTS| - 1] == a;
    LoneBraceNoCloseTag(EXAMPLE_ARGUMENTS);
    CallTextParses(EXAMPLE_NAME, EXAMPLE_ARGUMENTS);
  }
}
