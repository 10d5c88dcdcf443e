/** ParseHUML: lexer, parser and converter in a row, as in internal/huml/huml.go. */
module Huml {
  import opened Prelude
  import opened Tokens
  import opened HumlSyntax
  import opened Model
  import opened Convert
  import Lexer
  import HumlParser

  function ParseHuml(format: NodeFormat, source: string): Result<WorkflowDefinition> {
    var tokens :- Lex(source);
    var tree :- ParseWorkflow(tokens);
    Ok(ConvertWorkflow(format, tree))
  }

  method ParseSource(format: NodeFormat, source: string) returns (r: Result<WorkflowDefinition>)
    ensures r == ParseHuml(format, source)
  {
    var tokens := Lexer.TokenizeText(source);
    if tokens.Err? {
      return Err;
    }
    var tree := HumlParser.ParseTokens(tokens.value);
    if tree.Err? {
      return Err;
    }
    var def := ConvertTree(format, tree.value);
    return Ok(def);
  }
}
