/** The analysis page's own state (the `App` component, frontend/src/App.js):
    the selected image, its preview, the current detections, the loading flag
    and the log of past analyses, with one method per event that changes them,
    and the context line handed to the chat panel. */
module Session {
  import opened Common
  import opened Text
  import opened Overlay

  /** The selected `File`; only its name is used. */
  datatype ImageFile = ImageFile(name: string)

  /** One line of the detection log: file name, number of detections, local time. */
  datatype HistoryEntry = HistoryEntry(name: string, count: nat, time: string)

  const ContextPrefix: string := "The user just analyzed an X-ray and found "
  const ContextSuffix: string := " wisdom teeth."

  /** The `detectionContext` passed to the chat panel (App.js:195): empty
      exactly when there are no detections. */
  function DetectionContext(detections: seq<Detection>): (ctx: string)
    ensures ctx == "" <==> detections == []
  {
    if |detections| > 0 then ContextPrefix + NatToString(|detections|) + ContextSuffix else ""
  }

  /** A non-empty context is the fixed sentence around a decimal numeral, and
      that numeral reads back as the number of detections. */
  lemma ContextReportsCount(detections: seq<Detection>)
    requires detections != []
    ensures var ctx := DetectionContext(detections);
            var count := ctx[|ContextPrefix|..|ctx| - |ContextSuffix|];
            && |ctx| > |ContextPrefix| + |ContextSuffix|
            && ctx[..|ContextPrefix|] == ContextPrefix
            && ctx[|ctx| - |ContextSuffix|..] == ContextSuffix
            && IsDigits(count) && DigitsValue(count) == |detections|
            && ctx[|ContextPrefix|] != '0'
  {
    var digits := NatToString(|detections|);
    var ctx := DetectionContext(detections);
    assert ctx == ContextPrefix + digits + ContextSuffix;
    assert ctx[|ContextPrefix|..|ctx| - |ContextSuffix|] == digits;
    NatToStringRoundTrip(|detections|);
  }

  class App {
    var image: Option<ImageFile>
    var previewUrl: Option<string>
    var detections: seq<Detection>
    var loading: bool
    var history: seq<HistoryEntry>

    /** The page as first rendered: nothing selected, nothing detected, an empty log. */
    constructor ()
      ensures image == None && previewUrl == None && detections == [] && !loading && history == []
    {
      image, previewUrl, detections, loading, history := None, None, [], false, [];
    }

    /** `handleFileChange`: a chosen file becomes the image, `objectUrl` (what
        `URL.createObjectURL` returned) its preview, and the detections of the
        previous image are dropped. Cancelling the dialog changes nothing. */
    method HandleFileChange(file: Option<ImageFile>, objectUrl: string)
      modifies this
      ensures file == None ==> unchanged(this)
      ensures file != None ==>
                && image == file && previewUrl == Some(objectUrl) && detections == []
                && loading == old(loading) && history == old(history)
    {
      if file != None {
        image := file;
        previewUrl := Some(objectUrl);
        detections := [];
      }
    }

    /** The preview's `onLoad`: a freshly loaded image has no detections. */
    method OnImageLoad()
      modifies this
      ensures detections == []
      ensures image == old(image) && previewUrl == old(previewUrl) && loading == old(loading) && history == old(history)
    {
      detections := [];
    }

    /** `handleUpload` up to the `await`: without an image it returns at once;
        otherwise it raises the loading flag and sends the image, returned here. */
    method BeginUpload() returns (sent: Option<ImageFile>)
      modifies this
      ensures sent == old(image)
      ensures sent == None ==> unchanged(this)
      ensures sent != None ==>
                && loading
                && image == old(image) && previewUrl == old(previewUrl)
                && detections == old(detections) && history == old(history)
    {
      sent := image;
      if image != None {
        loading := true;
      }
    }

    /** `handleUpload` after the `await`. On a response, its detection list
        replaces the current one wholesale and one log entry for `sent`, counting
        those detections and stamped with `time`, goes in front of the earlier
        entries. On a failure neither changes. The loading flag drops either way. */
    method FinishUpload(sent: ImageFile, reply: Reply<seq<Detection>>, time: string)
      modifies this
      ensures !loading
      ensures image == old(image) && previewUrl == old(previewUrl)
      ensures reply.Arrived? ==>
                && detections == reply.value
                && history == [HistoryEntry(sent.name, |reply.value|, time)] + old(history)
                && |history| == |old(history)| + 1 && history[0].count == |detections|
                && history[1..] == old(history)
      ensures reply.Failed? ==> detections == old(detections) && history == old(history)
    {
      if reply.Arrived? {
        detections := reply.value;
        history := [HistoryEntry(sent.name, |reply.value|, time)] + history;
      }
      loading := false;
    }
  }
}
