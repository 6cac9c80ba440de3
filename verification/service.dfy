/**
  The five protected endpoints. Each first runs the auth gate on the token
  from the query string; only when the gate yields a user does the endpoint
  run its list operation, whose answer becomes the response body.
 */
module Service {
  import opened Responses
  import opened Tokens
  import opened ListOps

  /** The endpoint called and its request body. */
  datatype Request =
    | SortRequest(numbers: seq<int>)                      // POST /bubble-sort
    | FilterEvenRequest(numbers: seq<int>)                // POST /filter-even
    | SumRequest(numbers: seq<int>)                       // POST /sum-elements
    | MaxRequest(numbers: seq<int>)                       // POST /max-value
    | SearchRequest(numbers: seq<int>, target: int)       // POST /binary-search

  /** The response bodies, one per endpoint. */
  datatype Reply =
    | SortedNumbers(numbers: seq<int>)                    // {"numbers": [...]}
    | EvenNumbers(evenNumbers: seq<int>)                  // {"even_numbers": [...]}
    | Total(sum: int)                                     // {"sum": n}
    | Maximum(max: int)                                   // {"max": n}
    | SearchResult(found: bool, index: int)               // {"found": b, "index": i}

  /** What a correct answer to each request is, stated without the algorithms. */
  ghost predicate Answers(req: Request, reply: Reply)
  {
    match req
    case SortRequest(numbers) =>
      reply.SortedNumbers? && Sorted(reply.numbers) && multiset(reply.numbers) == multiset(numbers)
    case FilterEvenRequest(numbers) =>
      reply.EvenNumbers? && IsEvenFilterOf(reply.evenNumbers, numbers)
    case SumRequest(numbers) =>
      reply.Total? && reply.sum == Sum(numbers)
    case MaxRequest(numbers) =>
      && reply.Maximum?
      && reply.max in numbers
      && forall k :: 0 <= k < |numbers| ==> numbers[k] <= reply.max
    case SearchRequest(numbers, target) =>
      && reply.SearchResult?
      && (reply.found ==> 0 <= reply.index < |numbers| && numbers[reply.index] == target)
      && (!reply.found ==> reply.index == -1)
      && (Sorted(numbers) ==> (reply.found <==> target in numbers))
  }

  /**
    One call of a protected endpoint. A token the gate rejects gives exactly
    `InvalidToken` whatever the request, so no part of the operation's result
    is observable; the only other failure is max-value on an empty list.
    Otherwise the reply answers the request.
   */
  method Handle(signer: Signer, token: Token, now: int, req: Request) returns (r: Response<Reply>)
    ensures GetCurrentUser(signer, token, now).Err? ==> r == Err(InvalidToken)
    ensures GetCurrentUser(signer, token, now).Ok? ==>
              (r.Err? <==> req.MaxRequest? && |req.numbers| == 0)
    ensures r.Err? ==> r.failure in {InvalidToken, EmptySequence}
    ensures r.Ok? ==> Answers(req, r.value)
  {
    var user := GetCurrentUser(signer, token, now);
    if user.Err? {
      return Err(user.failure);
    }
    match req
    case SortRequest(numbers) =>
      var sorted := BubbleSort(numbers);
      r := Ok(SortedNumbers(sorted));
    case FilterEvenRequest(numbers) =>
      FilterEvenCounts(numbers);
      r := Ok(EvenNumbers(FilterEven(numbers)));
    case SumRequest(numbers) =>
      var total := SumElements(numbers);
      r := Ok(Total(total));
    case MaxRequest(numbers) =>
      var m := MaxValue(numbers);
      if m.None? {
        r := Err(EmptySequence);
      } else {
        r := Ok(Maximum(m.value));
      }
    case SearchRequest(numbers, target) =>
      var found, index := BinarySearch(numbers, target);
      r := Ok(SearchResult(found, index));
  }

  // The requests of the repository's test suite, each with a token the gate accepts.

  method SortScenario(signer: Signer, token: Token, now: int)
    requires GetCurrentUser(signer, token, now).Ok?
  {
    var r := Handle(signer, token, now, SortRequest([3, 2, 1]));
    assert multiset([3, 2, 1]) == multiset([1, 2, 3]);
    SortedPermutationUnique(r.value.numbers, [1, 2, 3]);
    assert r == Ok(SortedNumbers([1, 2, 3]));
  }

  method FilterEvenScenario(signer: Signer, token: Token, now: int)
    requires GetCurrentUser(signer, token, now).Ok?
  {
    assert FilterEven([5, 3, 8, 6, 1, 9]) == [8, 6] by {
      assert FilterEven([9]) == [];
      assert FilterEven([1, 9]) == [];
      assert FilterEven([6, 1, 9]) == [6];
      assert FilterEven([8, 6, 1, 9]) == [8, 6];
      assert FilterEven([3, 8, 6, 1, 9]) == [8, 6];
    }
    var r := Handle(signer, token, now, FilterEvenRequest([5, 3, 8, 6, 1, 9]));
    EvenFilterUnique(r.value.evenNumbers, [5, 3, 8, 6, 1, 9]);
    assert r == Ok(EvenNumbers([8, 6]));
  }

  method FilterEvenScenario2(signer: Signer, token: Token, now: int)
    requires GetCurrentUser(signer, token, now).Ok?
  {
    assert FilterEven([1, 2, 3, 4, 5]) == [2, 4] by {
      assert FilterEven([5]) == [];
      assert FilterEven([4, 5]) == [4];
      assert FilterEven([3, 4, 5]) == [4];
      assert FilterEven([2, 3, 4, 5]) == [2, 4];
    }
    var r := Handle(signer, token, now, FilterEvenRequest([1, 2, 3, 4, 5]));
    EvenFilterUnique(r.value.evenNumbers, [1, 2, 3, 4, 5]);
    assert r == Ok(EvenNumbers([2, 4]));
  }

  method SumScenario(signer: Signer, token: Token, now: int)
    requires GetCurrentUser(signer, token, now).Ok?
  {
    var r := Handle(signer, token, now, SumRequest([5, 3, 8, 6, 1, 9]));
    assert Sum([5, 3, 8, 6, 1, 9]) == 32;
    assert r == Ok(Total(32));
    r := Handle(signer, token, now, SumRequest([1, 2, 3, 4, 5]));
    assert Sum([1, 2, 3, 4, 5]) == 15;
    assert r == Ok(Total(15));
  }

  method MaxScenario(signer: Signer, token: Token, now: int)
    requires GetCurrentUser(signer, token, now).Ok?
  {
    var numbers := [5, 3, 8, 6, 1, 9];
    var r := Handle(signer, token, now, MaxRequest(numbers));
    assert numbers[5] <= r.value.max;
    assert r == Ok(Maximum(9));
    numbers := [1, 2, 3, 4, 5];
    r := Handle(signer, token, now, MaxRequest(numbers));
    assert numbers[4] <= r.value.max;
    assert r == Ok(Maximum(5));
  }

  method SearchScenario(signer: Signer, token: Token, now: int)
    requires GetCurrentUser(signer, token, now).Ok?
  {
    var numbers := [1, 2, 3, 4, 5];
    assert Sorted(numbers);
    var r := Handle(signer, token, now, SearchRequest(numbers, 3));
    assert numbers[2] == 3;
    assert r == Ok(SearchResult(true, 2));
    r := Handle(signer, token, now, SearchRequest(numbers, 6));
    assert r == Ok(SearchResult(false, -1));
  }

  /** The unauthorized test: a token the gate rejects never reaches the sort. */
  method RejectedScenario(signer: Signer, token: Token, now: int)
    requires GetCurrentUser(signer, token, now).Err?
  {
    var r := Handle(signer, token, now, SortRequest([3, 2, 1]));
    assert r == Err(InvalidToken) && StatusCode(r.failure) == 401;
  }
}
