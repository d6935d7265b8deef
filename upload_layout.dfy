/** How `transferAttachments` lays out uploads: for one execution, one upload per readable
    attachment in order; for a run of executions, one such block per execution. */
module UploadLayout {
  import opened Text
  import opened Remote
  import opened GatewayRules
  import opened GatewaySpec

  /** The attachments whose content can be read. */
  function ReadableCount(attachments: seq<Attachment>): nat {
    if attachments == [] then 0
    else ReadableCount(attachments[..|attachments| - 1])
         + (if attachments[|attachments| - 1].base64Lines.Some? then 1 else 0)
  }

  /** The length of `count` blocks of `size` uploads laid end to end, counted block by
      block (`count * size`, see `BlocksLengthIsProduct`). */
  function BlocksLength(count: nat, size: nat): nat {
    if count == 0 then 0 else BlocksLength(count - 1, size) + size
  }

  lemma {:induction false} BlocksLengthIsProduct(count: nat, size: nat)
    ensures BlocksLength(count, size) == count * size
  {
    if count > 0 {
      BlocksLengthIsProduct(count - 1, size);
    }
  }

  /** A block that starts before the `count`-th ends within `count` blocks. */
  lemma {:induction false} BlocksLengthGrows(i: nat, count: nat, size: nat)
    requires i < count
    ensures BlocksLength(i, size) + size <= BlocksLength(count, size)
  {
    if i + 1 < count {
      BlocksLengthGrows(i, count - 1, size);
    }
  }

  /** What `saveAttachment` uploads against one execution: one upload per readable
      attachment, in the attachments' order, under the attachment's key, title, content
      type and joined lines. */
  function UploadsFor(executionId: nat, attachments: seq<Attachment>): (r: seq<Upload>)
    ensures |r| == ReadableCount(attachments)
  {
    if attachments == [] then []
    else
      var a := attachments[|attachments| - 1];
      UploadsFor(executionId, attachments[..|attachments| - 1])
      + (if a.base64Lines.None? then []
         else [Upload(executionId, AttachmentKey(a), CreatedBy, AttachmentFileName(a), a.contentType, JoinLines(a.base64Lines.value))])
  }

  /** Every upload `UploadsFor` lists is against the execution and described as created
      by the integration. */
  lemma {:induction false} UploadsForAgainst(executionId: nat, attachments: seq<Attachment>)
    ensures forall k :: 0 <= k < |UploadsFor(executionId, attachments)| ==>
              UploadsFor(executionId, attachments)[k].executionId == executionId
              && UploadsFor(executionId, attachments)[k].description == CreatedBy
  {
    if attachments != [] {
      var init := attachments[..|attachments| - 1];
      UploadsForAgainst(executionId, init);
      var a := attachments[|attachments| - 1];
      var head := UploadsFor(executionId, init);
      var tail := if a.base64Lines.None? then []
                  else [Upload(executionId, AttachmentKey(a), CreatedBy, AttachmentFileName(a), a.contentType, JoinLines(a.base64Lines.value))];
      var r := UploadsFor(executionId, attachments);
      assert r == head + tail;
      forall k | 0 <= k < |r|
        ensures r[k].executionId == executionId && r[k].description == CreatedBy
      {
        if k < |head| {
          assert r[k] == head[k];
        } else {
          assert r[k] == tail[k - |head|];
        }
      }
    }
  }

  /** The uploads of the last loop of `onFinish`: for each execution, in order, the block
      `UploadsFor` gives for its id. */
  function UploadsPerExecution(executions: seq<Execution>, attachments: seq<Attachment>): (r: seq<Upload>)
    ensures |r| == BlocksLength(|executions|, ReadableCount(attachments))
  {
    if executions == [] then []
    else UploadsPerExecution(executions[..|executions| - 1], attachments) + UploadsFor(executions[|executions| - 1].id, attachments)
  }

  /** The `i`-th block of `UploadsPerExecution` is the uploads against the `i`-th execution. */
  lemma {:induction false} UploadsPerExecutionBlock(executions: seq<Execution>, attachments: seq<Attachment>, i: nat)
    requires i < |executions|
    ensures var n := ReadableCount(attachments);
            var from := BlocksLength(i, n);
            var r := UploadsPerExecution(executions, attachments);
            from + n <= |r| && r[from .. from + n] == UploadsFor(executions[i].id, attachments)
  {
    var n := ReadableCount(attachments);
    var from := BlocksLength(i, n);
    var init := executions[..|executions| - 1];
    var head := UploadsPerExecution(init, attachments);
    if i < |init| {
      UploadsPerExecutionBlock(init, attachments, i);
      BlocksLengthGrows(i, |init|, n);
      assert executions[i] == init[i];
      assert (head + UploadsFor(executions[|executions| - 1].id, attachments))[from .. from + n] == head[from .. from + n];
    } else {
      assert |head| == from;
    }
  }

  /** Adding one execution at the end adds its block at the end. */
  lemma UploadsPerExecutionSnoc(executions: seq<Execution>, start: nat, e: Execution, attachments: seq<Attachment>)
    requires start <= |executions|
    ensures UploadsPerExecution((executions + [e])[start..], attachments)
            == UploadsPerExecution(executions[start..], attachments) + UploadsFor(e.id, attachments)
  {
    var after := (executions + [e])[start..];
    assert after[..|after| - 1] == executions[start..];
    assert after[|after| - 1] == e;
  }

  /** Uploads laid out after earlier ones stay laid out when one more execution gets its
      block. */
  lemma LayoutExtends(earlier: seq<Upload>, uploads: seq<Upload>, executions: seq<Execution>, start: nat, e: Execution, attachments: seq<Attachment>)
    requires start <= |executions|
    requires uploads == earlier + UploadsPerExecution(executions[start..], attachments)
    ensures uploads + UploadsFor(e.id, attachments) == earlier + UploadsPerExecution((executions + [e])[start..], attachments)
  {
    UploadsPerExecutionSnoc(executions, start, e, attachments);
    AppendAfter(earlier, UploadsPerExecution(executions[start..], attachments), uploads,
                UploadsFor(e.id, attachments), UploadsPerExecution((executions + [e])[start..], attachments));
  }

  /** Appending to a sequence laid out as a prefix and a middle part appends to the
      middle part. */
  lemma AppendAfter<T>(prefix: seq<T>, middle: seq<T>, whole: seq<T>, last: seq<T>, extended: seq<T>)
    requires whole == prefix + middle
    requires extended == middle + last
    ensures whole + last == prefix + extended
  {
    assert prefix + middle + last == prefix + (middle + last);
  }

  /** After some earlier uploads and one block per execution, the `i`-th block of `n`
      uploads (it starts `i * n` after the earlier ones) belongs to the `i`-th execution. */
  lemma BlockAfterEarlier(earlier: seq<Upload>, uploads: seq<Upload>, executions: seq<Execution>, attachments: seq<Attachment>, i: nat)
    requires i < |executions|
    requires uploads == earlier + UploadsPerExecution(executions, attachments)
    ensures var n := ReadableCount(attachments);
            |earlier| + i * n + n <= |uploads|
            && uploads[|earlier| + i * n .. |earlier| + i * n + n] == UploadsFor(executions[i].id, attachments)
  {
    var n := ReadableCount(attachments);
    var rest := UploadsPerExecution(executions, attachments);
    BlocksLengthIsProduct(i, n);
    UploadsPerExecutionBlock(executions, attachments, i);
    SliceAfterPrefix(earlier, rest, i * n, i * n + n);
  }

  /** A slice of the part after a prefix, read back from the whole. */
  lemma SliceAfterPrefix<T>(prefix: seq<T>, rest: seq<T>, from: nat, to: nat)
    requires from <= to <= |rest|
    ensures (prefix + rest)[|prefix| + from .. |prefix| + to] == rest[from..to]
  {
  }
}
