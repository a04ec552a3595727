/** The creator upload form: storage paths built from the user id, the time
    and the file extension, and the three store steps (video upload,
    thumbnail upload, row insert) run in order inside one `try`, where the
    first failing step ends the run. */
module UploadForm {
  import opened JsText
  import opened Backend

  /** `file.name.split('.').pop()` */
  function Extension(fileName: string): (ext: string)
    ensures '.' !in ext
    ensures forall c :: c in ext ==> c in fileName
  {
    LastPieceChars(fileName, '.');
    LastPiece(fileName, '.')
  }

  /** The extension is the text after the last `.`, or the whole name when there is none. */
  lemma {:induction false} ExtensionMeaning(fileName: string, stem: string, ext: string)
    ensures '.' !in fileName ==> Extension(fileName) == fileName
    ensures '.' !in ext ==> Extension(stem + "." + ext) == ext
  {
    if '.' !in fileName {
      LastPieceOfSeparatorFree(fileName, '.');
    }
    if '.' !in ext {
      LastPieceAfter(stem, '.', ext);
    }
  }

  /** `${user.id}/${Date.now()}.${fileExt}` */
  function VideoPath(userId: string, now: nat, ext: string): (path: string)
    ensures |path| > |userId| + |ext| + 1
    ensures path[..|userId| + 1] == userId + "/"
  {
    userId + "/" + Decimal(now) + "." + ext
  }

  /** `${user.id}/${Date.now()}_thumb.${thumbExt}` */
  function ThumbPath(userId: string, now: nat, ext: string): (path: string)
    ensures |path| > |userId| + |ext| + 7
    ensures path[..|userId| + 1] == userId + "/"
  {
    userId + "/" + Decimal(now) + "_thumb." + ext
  }

  /** `getPublicUrl(path).data.publicUrl`: the bucket's public address followed by the path,
      passed through `encodeURI`. */
  function PublicUrl(bucketUrl: string, path: string): (url: string)
    ensures url == EncodeUri(bucketUrl) + EncodeUri(path)
    ensures (forall i :: 0 <= i < |path| ==> UriKept(path[i])) ==> url == EncodeUri(bucketUrl) + path
  {
    EncodeUriAppend(bucketUrl, path);
    if forall i :: 0 <= i < |path| ==> UriKept(path[i]) then
      EncodeUriKeeps(path);
      EncodeUri(bucketUrl + path)
    else
      EncodeUri(bucketUrl + path)
  }

  /** Both paths sit in the user's own folder and end in the extension they were built
      from, which `Extension` reads back; the video is never stored under the thumbnail's
      name. */
  lemma {:induction false} PathShapes(userId: string, t1: nat, t2: nat, ext1: string, ext2: string)
    ensures VideoPath(userId, t1, ext1)[..|userId| + 1] == userId + "/"
    ensures ThumbPath(userId, t2, ext2)[..|userId| + 1] == userId + "/"
    ensures VideoPath(userId, t1, ext1) != ThumbPath(userId, t2, ext2)
    ensures '.' !in ext1 ==> Extension(VideoPath(userId, t1, ext1)) == ext1
    ensures '.' !in ext2 ==> Extension(ThumbPath(userId, t2, ext2)) == ext2
  {
    if '.' !in ext1 {
      assert VideoPath(userId, t1, ext1) == (userId + "/" + Decimal(t1)) + ['.'] + ext1;
      LastPieceAfter(userId + "/" + Decimal(t1), '.', ext1);
    }
    if '.' !in ext2 {
      assert ThumbPath(userId, t2, ext2) == (userId + "/" + Decimal(t2) + "_thumb") + ['.'] + ext2;
      LastPieceAfter(userId + "/" + Decimal(t2) + "_thumb", '.', ext2);
    }
    var v, th := VideoPath(userId, t1, ext1), ThumbPath(userId, t2, ext2);
    var d1, d2 := Decimal(t1), Decimal(t2);
    var n := |userId| + 1;
    assert v == (userId + "/") + (d1 + "." + ext1);
    assert th == (userId + "/") + (d2 + "_thumb." + ext2);
    // After the folder both names start with a run of digits; the character ending the
    // shorter run is `.` in the video's name and `_` in the thumbnail's.
    var a, b := d1 + "." + ext1, d2 + "_thumb." + ext2;
    assert v[n..] == a && th[n..] == b;
    var m := if |d1| <= |d2| then |d1| else |d2|;
    assert a[m] != b[m];
    assert v[n + m] != th[n + m];
  }

  /** The `creator_videos` insert. */
  datatype VideoInsert = VideoInsert(
    user_id: string,
    title: string,
    description: string,
    category: string,
    video_path: string,
    thumbnail_path: Option<string>)

  /** The store calls of an upload. */
  datatype Step =
    | UploadVideo(path: string)
    | UploadThumbnail(path: string)
    | InsertVideo(row: VideoInsert)

  /** The steps of a run in which every store call succeeds. `thumbName` is the chosen
      thumbnail file's name, if any; `t1` and `t2` are the two readings of the clock. */
  function Plan(userId: string, title: string, description: string, category: string,
                videoName: string, thumbName: Option<string>, t1: nat, t2: nat, bucketUrl: string): (plan: seq<Step>)
    ensures |plan| == (if thumbName.Some? then 3 else 2)
    ensures plan[0] == UploadVideo(VideoPath(userId, t1, Extension(videoName)))
    ensures thumbName.Some? ==> plan[1] == UploadThumbnail(ThumbPath(userId, t2, Extension(thumbName.value)))
    ensures plan[|plan| - 1].InsertVideo?
    ensures var row := plan[|plan| - 1].row;
      && row == VideoInsert(userId, title, description, category, plan[0].path, row.thumbnail_path)
      && (row.thumbnail_path.Some? <==> thumbName.Some?)
      && (thumbName.Some? ==> row.thumbnail_path == Some(PublicUrl(bucketUrl, plan[1].path)))
  {
    var videoPath := VideoPath(userId, t1, Extension(videoName));
    if thumbName.None? then
      [UploadVideo(videoPath), InsertVideo(VideoInsert(userId, title, description, category, videoPath, None))]
    else
      var thumbPath := ThumbPath(userId, t2, Extension(thumbName.value));
      [UploadVideo(videoPath), UploadThumbnail(thumbPath),
       InsertVideo(VideoInsert(userId, title, description, category, videoPath, Some(PublicUrl(bucketUrl, thumbPath))))]
  }

  /** The errors the store calls of the plan resolve with, in the plan's order. */
  function Outcomes(videoError: Option<StoreError>, thumbError: Option<StoreError>, insertError: Option<StoreError>,
                    hasThumb: bool): seq<Option<StoreError>> {
    [videoError] + (if hasThumb then [thumbError] else []) + [insertError]
  }

  /** The steps a `try` block issues: each step in turn, up to and including the first one
      whose call fails. */
  function Issued(plan: seq<Step>, errors: seq<Option<StoreError>>): (done: seq<Step>)
    requires |plan| == |errors|
    ensures done <= plan
    ensures plan != [] ==> done != []
    ensures forall i :: 0 <= i < |errors| && errors[i].Some? ==> |done| <= i + 1
    ensures forall i :: 0 <= i < |done| - 1 ==> errors[i].None?
    ensures 0 < |done| < |plan| ==> errors[|done| - 1].Some?
    ensures (forall i :: 0 <= i < |errors| ==> errors[i].None?) ==> done == plan
  {
    if plan == [] then []
    else if errors[0].Some? then [plan[0]]
    else [plan[0]] + Issued(plan[1..], errors[1..])
  }

  /** The position of the first failing call, or the number of calls when none fails. */
  function FirstFailureAt(errors: seq<Option<StoreError>>): (k: nat)
    ensures k <= |errors|
    ensures forall i :: 0 <= i < k ==> errors[i].None?
    ensures k < |errors| ==> errors[k].Some?
  {
    if errors == [] || errors[0].Some? then 0 else 1 + FirstFailureAt(errors[1..])
  }

  /** The error the `catch` receives: the first failure, if any. */
  function FirstFailure(errors: seq<Option<StoreError>>): (e: Option<StoreError>)
    ensures e.None? <==> forall i :: 0 <= i < |errors| ==> errors[i].None?
  {
    var k := FirstFailureAt(errors);
    if k < |errors| then errors[k] else None
  }

  const Required := "A video file and title are required."

  /** The form's state. A file is represented by its name. */
  class Upload {
    var title: string
    var description: string
    var category: string
    var videoFile: Option<string>
    var thumbnailFile: Option<string>
    var loading: bool

    constructor ()
      ensures title == "" && description == "" && category == "Tutorial"
      ensures videoFile.None? && thumbnailFile.None? && !loading
    {
      title := "";
      description := "";
      category := "Tutorial";
      videoFile := None;
      thumbnailFile := None;
      loading := false;
    }

    /** The inputs of the form. */
    method Edit(newTitle: string, newDescription: string, newCategory: string,
                newVideo: Option<string>, newThumbnail: Option<string>)
      modifies this`title, this`description, this`category, this`videoFile, this`thumbnailFile
      ensures title == newTitle && description == newDescription && category == newCategory
      ensures videoFile == newVideo && thumbnailFile == newThumbnail
    {
      title, description, category := newTitle, newDescription, newCategory;
      videoFile, thumbnailFile := newVideo, newThumbnail;
    }

    /** `handleUpload`, given the signed-in user (if any), the two clock readings, the
        bucket's public address and the error each store call would resolve with. Returns the
        store calls made, in order. */
    method HandleUpload(user: Option<string>, t1: nat, t2: nat, bucketUrl: string,
                        videoError: Option<StoreError>, thumbError: Option<StoreError>, insertError: Option<StoreError>)
      returns (steps: seq<Step>, effects: seq<Effect>)
      modifies this`loading
      ensures videoFile.None? || title == "" || user.None? ==>
        steps == [] && effects == [Alert(Required)] && loading == old(loading)
      ensures videoFile.Some? && title != "" && user.Some? ==>
        var plan := Plan(user.value, title, description, category, videoFile.value, thumbnailFile, t1, t2, bucketUrl);
        var errors := Outcomes(videoError, thumbError, insertError, thumbnailFile.Some?);
        && !loading
        && steps == Issued(plan, errors)
        && effects == match FirstFailure(errors)
                      case Some(e) => [Alert("Upload failed: " + e.message)]
                      case None => [Alert("Video uploaded successfully!"), CallOnUpload, CallOnClose]
    {
      if videoFile.None? || title == "" || user.None? {
        return [], [Alert(Required)];
      }
      loading := true;
      ghost var errors := Outcomes(videoError, thumbError, insertError, thumbnailFile.Some?);
      var userId := user.value;
      var videoPath := VideoPath(userId, t1, Extension(videoFile.value));
      steps := [UploadVideo(videoPath)];
      if videoError.Some? {
        effects := [Alert("Upload failed: " + videoError.value.message)];
        loading := false;
        return;
      }
      var thumbnailUrl: Option<string> := None;
      if thumbnailFile.Some? {
        var thumbPath := ThumbPath(userId, t2, Extension(thumbnailFile.value));
        steps := steps + [UploadThumbnail(thumbPath)];
        if thumbError.Some? {
          assert FirstFailureAt(errors[1..]) == 0;
          effects := [Alert("Upload failed: " + thumbError.value.message)];
          loading := false;
          return;
        }
        thumbnailUrl := Some(PublicUrl(bucketUrl, thumbPath));
      }
      steps := steps + [InsertVideo(VideoInsert(userId, title, description, category, videoPath, thumbnailUrl))];
      if insertError.Some? {
        assert FirstFailureAt(errors[|errors| - 1..]) == 0;
        effects := [Alert("Upload failed: " + insertError.value.message)];
        loading := false;
        return;
      }
      effects := [Alert("Video uploaded successfully!"), CallOnUpload, CallOnClose];
      loading := false;
    }
  }

  /** A failed upload never writes the row: the insert is issued only when every upload
      before it succeeded, and then it is the last call. */
  lemma {:induction false} InsertOnlyAfterUploads(plan: seq<Step>, errors: seq<Option<StoreError>>)
    requires |plan| == |errors| && plan != []
    requires forall i :: 0 <= i < |plan| - 1 ==> !plan[i].InsertVideo?
    ensures var done := Issued(plan, errors);
      done[|done| - 1].InsertVideo? <==> |done| == |plan| && plan[|plan| - 1].InsertVideo?
    ensures var done := Issued(plan, errors);
      |done| == |plan| ==> forall i :: 0 <= i < |plan| - 1 ==> errors[i].None?
  {
    var done := Issued(plan, errors);
    assert done == plan[..|done|];
    if |done| < |plan| {
      assert done[|done| - 1] == plan[|done| - 1];
    }
  }
}
