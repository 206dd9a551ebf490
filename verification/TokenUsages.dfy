/** The token counts a provider may report for a turn (backend/app/models/router_schema.py, `TokenUsage`). */
module TokenUsages {
  import opened Options

  datatype TokenUsage = TokenUsage(input: Option<nat>, output: Option<nat>, total: Option<nat>)
}
