/** HTTP responses as the route handlers build them. */
module Http {

  /** A response: status code, headers and a body of the route's own kind. */
  datatype Response<B> = Response(status: nat, headers: map<string, string>, body: B)

  /** The CORS headers of the Deno server (zypher-server.ts). */
  const CorsHeaders: map<string, string> := map[
    "Access-Control-Allow-Origin" := "*",
    "Access-Control-Allow-Methods" := "POST, OPTIONS",
    "Access-Control-Allow-Headers" := "Content-Type"
  ]

  /** `NextResponse.json(body)` and `{ ...corsHeaders, "Content-Type": ... }` use this. */
  const JsonContentType: map<string, string> := map["Content-Type" := "application/json"]
}
