/** Unique token generation: random probe path segments of a precisely known length. */
module Tokens {

  /** Length of one simple-format UUID (32 hex digits, no hyphens). */
  const UUID_LENGTH: nat := 32

  predicate IsLowerHex(c: char)
  {
    '0' <= c <= '9' || 'a' <= c <= 'f'
  }

  /** The simple, lower-case text form of a UUID. */
  predicate IsSimpleUuid(s: string)
  {
    |s| == UUID_LENGTH && forall i :: 0 <= i < |s| ==> IsLowerHex(s[i])
  }

  /** One block drawn from the random UUID source. */
  type Block = s: string | IsSimpleUuid(s) witness "00000000000000000000000000000000"

  /** The first `n` blocks of the random source `draw`, in the order they are drawn. */
  function Draws(draw: nat -> Block, n: nat): (ids: seq<Block>)
    ensures |ids| == n
    ensures forall k :: 0 <= k < n ==> ids[k] == draw(k)
  {
    if n == 0 then [] else Draws(draw, n - 1) + [draw(n - 1)]
  }

  /** `ids.join("")`: the strings concatenated, with no separator. */
  function Join(ids: seq<string>): (joined: string)
  {
    if ids == [] then "" else Join(ids[..|ids| - 1]) + ids[|ids| - 1]
  }

  /** Joining `n` blocks gives `32 * n` lower-case hex digits, block `k` at offset `32 * k`. */
  lemma {:induction false} JoinBlocks(ids: seq<Block>)
    ensures |Join(ids)| == UUID_LENGTH * |ids|
    ensures forall k :: 0 <= k < |ids| ==> Join(ids)[UUID_LENGTH * k .. UUID_LENGTH * (k + 1)] == ids[k]
    ensures forall i :: 0 <= i < |Join(ids)| ==> IsLowerHex(Join(ids)[i])
  {
    if ids != [] {
      var init, last := ids[..|ids| - 1], ids[|ids| - 1];
      JoinBlocks(init);
      var s := Join(ids);
      assert s == Join(init) + last;
      forall k | 0 <= k < |ids|
        ensures s[UUID_LENGTH * k .. UUID_LENGTH * (k + 1)] == ids[k]
      {
        if k < |init| {
          assert UUID_LENGTH * (k + 1) <= |Join(init)|;
          assert s[UUID_LENGTH * k .. UUID_LENGTH * (k + 1)] == Join(init)[UUID_LENGTH * k .. UUID_LENGTH * (k + 1)];
          assert init[k] == ids[k];
        } else {
          assert s[UUID_LENGTH * k .. UUID_LENGTH * (k + 1)] == last;
        }
      }
      forall i | 0 <= i < |s|
        ensures IsLowerHex(s[i])
      {
        if i >= |Join(init)| {
          assert s[i] == last[i - |Join(init)|];
        }
      }
    }
  }

  /**
   * `unique_string(length)`: draws `length` UUIDs, pushes each one's simple form
   * onto `ids`, and joins them.
   */
  method UniqueString(length: nat, draw: nat -> Block) returns (uniqueId: string)
    ensures uniqueId == Join(Draws(draw, length))
    ensures |uniqueId| == UUID_LENGTH * length
    ensures forall k :: 0 <= k < length ==> uniqueId[UUID_LENGTH * k .. UUID_LENGTH * (k + 1)] == draw(k)
    ensures forall i :: 0 <= i < |uniqueId| ==> IsLowerHex(uniqueId[i])
  {
    var ids: seq<Block> := [];
    for i := 0 to length
      invariant ids == Draws(draw, i)
    {
      ids := ids + [draw(i)];
    }
    uniqueId := Join(ids);
    JoinBlocks(ids);
  }

  /**
   * The 3-unit token of the second wildcard probe is exactly `2 * UUID_LENGTH`
   * characters longer than the 1-unit token of the first, whatever is drawn.
   */
  lemma ProbeTokenDelta(first: nat -> Block, second: nat -> Block)
    ensures |Join(Draws(second, 3))| == |Join(Draws(first, 1))| + 2 * UUID_LENGTH
  {
    JoinBlocks(Draws(second, 3));
    JoinBlocks(Draws(first, 1));
  }
}
