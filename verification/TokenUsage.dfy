// Token usage as the upstream reports it: named values, mostly numbers, reported piecemeal and
// merged so that a later zero never wipes out a known count.
module TokenUsage {

  datatype Reported = Num(n: real) | Other(text: string)

  type Usage = map<string, Reported>

  /** Two reports merged key by key: of two numbers the larger one stays, otherwise the later value. */
  function MergeRaw(input: Usage, output: Usage): Usage {
    map k | k in input.Keys + output.Keys ::
      if k !in output then input[k]
      else if k in input && input[k].Num? && output[k].Num? && output[k].n < input[k].n then input[k]
      else output[k]
  }

  method MergeRawUsage(input: Usage, output: Usage) returns (merged: Usage)
    ensures merged == MergeRaw(input, output)
  {
    merged := input;
    var keys := output.Keys;
    while keys != {}
      invariant keys <= output.Keys
      invariant merged == MergeRaw(input, output - keys)
      decreases keys
    {
      var k :| k in keys;
      keys := keys - {k};
      if !(k in merged && merged[k].Num? && output[k].Num? && output[k].n < merged[k].n) {
        merged := merged[k := output[k]];
      }
    }
    assert output - {} == output;
  }

  predicate Numeric(u: Usage) {
    forall k :: k in u ==> u[k].Num?
  }

  predicate AllNumeric(reports: seq<Usage>) {
    forall i :: 0 <= i < |reports| ==> Numeric(reports[i])
  }

  /** `u` holds, for every key anybody reported, the largest value reported for it. */
  ghost predicate Largest(u: Usage, reports: seq<Usage>) {
    && Numeric(u)
    && (forall i, k :: 0 <= i < |reports| && k in reports[i] ==>
          k in u && reports[i][k].Num? && reports[i][k].n <= u[k].n)
    && (forall k :: k in u ==> exists i :: 0 <= i < |reports| && k in reports[i] && reports[i][k] == u[k])
  }

  /** The largest values do not depend on the order or repetition of the reports. */
  lemma LargestIsUnique(u: Usage, v: Usage, a: seq<Usage>, b: seq<Usage>)
    requires AllNumeric(a) && AllNumeric(b) && Largest(u, a) && Largest(v, b)
    requires forall r :: r in a <==> r in b
    ensures u == v
  {
    LargestBelow(u, v, a, b);
    LargestBelow(v, u, b, a);
    assert forall k :: k in u ==> u[k] == v[k];
  }

  lemma LargestBelow(u: Usage, v: Usage, a: seq<Usage>, b: seq<Usage>)
    requires AllNumeric(a) && AllNumeric(b) && Largest(u, a) && Largest(v, b)
    requires forall r :: r in a ==> r in b
    ensures forall k :: k in u ==> k in v && u[k].n <= v[k].n
  {
    forall k | k in u ensures k in v && u[k].n <= v[k].n {
      var i :| 0 <= i < |a| && k in a[i] && a[i][k] == u[k];
      assert a[i] in b;
      var j :| 0 <= j < |b| && b[j] == a[i];
    }
  }

  /** Merging the largest values of two groups of reports gives the largest of them all. */
  lemma MergeOfLargest(u: Usage, a: seq<Usage>, v: Usage, b: seq<Usage>)
    requires AllNumeric(a) && AllNumeric(b) && Largest(u, a) && Largest(v, b)
    ensures AllNumeric(a + b) && Largest(MergeRaw(u, v), a + b)
  {
    var m := MergeRaw(u, v);
    forall k | k in m ensures exists i :: 0 <= i < |a + b| && k in (a + b)[i] && (a + b)[i][k] == m[k] {
      if k in v && m[k] == v[k] {
        var i :| 0 <= i < |b| && k in b[i] && b[i][k] == v[k];
        assert (a + b)[|a| + i] == b[i];
      } else {
        var i :| 0 <= i < |a| && k in a[i] && a[i][k] == u[k];
        assert (a + b)[i] == a[i];
      }
    }
    forall i, k | 0 <= i < |a + b| && k in (a + b)[i] ensures k in m && (a + b)[i][k].n <= m[k].n {
      if i < |a| { assert (a + b)[i] == a[i]; } else { assert (a + b)[i] == b[i - |a|]; }
    }
  }

  /** Input usage and accumulated output usage together hold the largest of all reports so far. */
  ghost predicate UsageRel(input: Usage, output: Usage, reports: seq<Usage>) {
    && Numeric(input) && Numeric(output) && AllNumeric(reports) && Largest(MergeRaw(input, output), reports)
  }

  lemma MergeAssociative(a: Usage, b: Usage, c: Usage)
    requires Numeric(a) && Numeric(b) && Numeric(c)
    ensures MergeRaw(MergeRaw(a, b), c) == MergeRaw(a, MergeRaw(b, c))
    ensures Numeric(MergeRaw(a, b)) && Numeric(MergeRaw(b, c))
  {
    var l, r := MergeRaw(MergeRaw(a, b), c), MergeRaw(a, MergeRaw(b, c));
    assert l.Keys == r.Keys;
    assert forall k :: k in l ==> l[k] == r[k];
  }

  /** One more report merged into the output usage. */
  lemma ReportMore(input: Usage, output: Usage, reports: seq<Usage>, u: Usage)
    requires UsageRel(input, output, reports) && Numeric(u)
    ensures UsageRel(input, MergeRaw(output, u), reports + [u])
  {
    MergeAssociative(input, output, u);
    assert Largest(u, [u]) by {
      forall k | k in u ensures exists i :: 0 <= i < 1 && k in [u][i] && [u][i][k] == u[k] { assert [u][0] == u; }
    }
    MergeOfLargest(MergeRaw(input, output), reports, u, [u]);
  }

  /** The first report is all there is. */
  lemma FirstReport(u: Usage)
    requires Numeric(u)
    ensures UsageRel(u, map[], [u])
  {
    assert MergeRaw(u, map[]) == u;
    forall k | k in u ensures exists i :: 0 <= i < 1 && k in [u][i] && [u][i][k] == u[k] { assert [u][0] == u; }
  }

  function Count(u: Usage, key: string): real {
    if key in u && u[key].Num? then u[key].n else 0.0
  }

  datatype OpenAIUsage = OpenAIUsage(prompt: real, completion: real, total: real, cached: real)

  /** Cache reads and writes are part of the prompt. */
  function MapUsage(u: Usage): OpenAIUsage {
    var read := Count(u, "cache_read_input_tokens");
    var prompt := Count(u, "input_tokens") + read + Count(u, "cache_creation_input_tokens");
    var completion := Count(u, "output_tokens");
    OpenAIUsage(prompt, completion, prompt + completion, read)
  }

  /** What n more tokens reported under a key add to the prompt, the completion, the total and the cached tokens. */
  function More(key: string, n: real): OpenAIUsage {
    match key
    case "input_tokens" => OpenAIUsage(n, 0.0, n, 0.0)
    case "cache_creation_input_tokens" => OpenAIUsage(n, 0.0, n, 0.0)
    case "cache_read_input_tokens" => OpenAIUsage(n, 0.0, n, n)
    case "output_tokens" => OpenAIUsage(0.0, n, n, 0.0)
    case _ => OpenAIUsage(0.0, 0.0, 0.0, 0.0)
  }

  /** More output tokens add to the completion and the total alone; more input, cache read and cache write tokens add
      to the prompt and the total, and of them the cache reads alone to the cached tokens; nothing else counts. */
  lemma EachTokenCountsOnce(u: Usage, key: string, n: real)
    ensures var was, now, more := MapUsage(u), MapUsage(u[key := Num(Count(u, key) + n)]), More(key, n);
            && now.prompt == was.prompt + more.prompt && now.completion == was.completion + more.completion
            && now.total == was.total + more.total && now.cached == was.cached + more.cached
    ensures MapUsage(map[]) == OpenAIUsage(0.0, 0.0, 0.0, 0.0)
  {
    var v := u[key := Num(Count(u, key) + n)];
    assert forall k :: Count(v, k) == if k == key then Count(u, key) + n else Count(u, k);
  }

  /** A value that is no number counts for nothing. */
  lemma OthersCountForNothing(u: Usage, key: string, text: string)
    ensures MapUsage(u[key := Other(text)]) == MapUsage(u - {key})
  {
    assert forall k :: Count(u[key := Other(text)], k) == Count(u - {key}, k);
  }
}
