/** The creator dashboard: the creator's own videos, and deleting one (the row
    first, then its files in storage, then the list on screen). The storage
    path of a thumbnail is rebuilt from the last `/` segment of its public URL. */
module CreatorDashboard {
  import opened JsText
  import opened Backend
  import opened Seqs
  import UploadForm

  /** The storage paths a delete removes: the video's, and the thumbnail's when the row has
      one, rebuilt as the user's folder followed by the last segment of its URL. */
  function FilesToDelete(userId: string, videoPath: string, thumbnailPath: Option<string>): (files: seq<string>)
    ensures 1 <= |files| <= 2 && files[0] == videoPath
    ensures |files| == 2 <==> Truthy(thumbnailPath)
    ensures |files| == 2 ==> |files[1]| > |userId| && files[1][..|userId| + 1] == userId + "/" && '/' !in files[1][|userId| + 1..]
  {
    if Truthy(thumbnailPath) then
      var name := LastPiece(thumbnailPath.value, '/');
      var path := userId + "/" + name;
      assert path[|userId| + 1..] == name;
      [videoPath, path]
    else [videoPath]
  }

  /** The thumbnail path is recovered from its public URL when `encodeURI` leaves its
      extension alone: then the user's folder plus the URL's last segment is the path the
      upload stored it under, whatever the bucket's address. */
  lemma {:induction false} ThumbnailPathRecovered(userId: string, bucketUrl: string, now: nat, thumbName: string)
    requires '/' !in thumbName
    requires var ext := UploadForm.Extension(thumbName); forall i :: 0 <= i < |ext| ==> UriKept(ext[i])
    ensures var path := UploadForm.ThumbPath(userId, now, UploadForm.Extension(thumbName));
      userId + "/" + LastPiece(UploadForm.PublicUrl(bucketUrl, path), '/') == path
  {
    var ext := UploadForm.Extension(thumbName);
    assert '/' !in ext;
    ThumbNameKept(now, ext);
    var name := Decimal(now) + "_thumb." + ext;
    assert UploadForm.ThumbPath(userId, now, ext) == userId + "/" + name;
    RecoverPath(userId, bucketUrl, name);
  }

  /** A file in the user's folder whose name `encodeURI` leaves alone is found again from its
      public URL. */
  lemma {:induction false} RecoverPath(userId: string, bucketUrl: string, name: string)
    requires '/' !in name
    requires forall i :: 0 <= i < |name| ==> UriKept(name[i])
    ensures userId + "/" + LastPiece(UploadForm.PublicUrl(bucketUrl, userId + "/" + name), '/') == userId + "/" + name
  {
    var folder := bucketUrl + userId;
    assert bucketUrl + (userId + "/" + name) == folder + "/" + name;
    EncodeAfterFolder(folder, name);
    LastPieceAfter(EncodeUri(folder), '/', name);
  }

  /** The file name part of a thumbnail path is left alone by `encodeURI` and has no `/`
      when its extension is such. */
  lemma {:induction false} ThumbNameKept(now: nat, ext: string)
    requires '/' !in ext
    requires forall i :: 0 <= i < |ext| ==> UriKept(ext[i])
    ensures var name := Decimal(now) + "_thumb." + ext;
      '/' !in name && forall i :: 0 <= i < |name| ==> UriKept(name[i])
  {
    var digits := Decimal(now);
    var name := digits + "_thumb." + ext;
    forall i | 0 <= i < |name|
      ensures UriKept(name[i]) && name[i] != '/'
    {
      if i >= |digits| + 7 {
        assert name[i] == ext[i - |digits| - 7];
      } else if i < |digits| {
        assert name[i] == digits[i] && IsDigit(digits[i]);
      }
    }
  }

  /** Encoding a folder, a `/` and a name of kept characters leaves the `/` and the name. */
  lemma {:induction false} EncodeAfterFolder(folder: string, name: string)
    requires forall i :: 0 <= i < |name| ==> UriKept(name[i])
    ensures EncodeUri(folder + "/" + name) == EncodeUri(folder) + ['/'] + name
  {
    EncodeUriKeeps(name);
    EncodeUriKeeps("/");
    EncodeUriAppend(folder + "/", name);
    EncodeUriAppend(folder, "/");
  }

  /** A thumbnail whose name has a space and no `.` keeps its whole name as the extension;
      `encodeURI` writes the space as `%20`, so the path rebuilt from the URL is not the
      stored one and the removal misses the file. */
  lemma {:induction false} SpacedThumbnailNotRecovered(userId: string, bucketUrl: string, now: nat, thumbName: string)
    requires '.' !in thumbName && ' ' in thumbName && ' ' !in userId
    ensures var path := UploadForm.ThumbPath(userId, now, UploadForm.Extension(thumbName));
      userId + "/" + LastPiece(UploadForm.PublicUrl(bucketUrl, path), '/') != path
  {
    UploadForm.ExtensionMeaning(thumbName, "", "");
    var path := UploadForm.ThumbPath(userId, now, thumbName);
    var url := UploadForm.PublicUrl(bucketUrl, path);
    var last := LastPiece(url, '/');
    var k :| 0 <= k < |thumbName| && thumbName[k] == ' ';
    assert path[|path| - |thumbName| + k] == ' ';
    EncodeUriChars(bucketUrl + path);
    assert ' ' !in url;
    LastPieceChars(url, '/');
    assert ' ' !in userId + "/" + last;
  }

  /** Deleting a video that an upload created removes exactly the files that upload stored:
      the video, and the thumbnail when one was uploaded. */
  lemma {:induction false} DeleteRemovesUploadedFiles(userId: string, title: string, description: string, category: string,
                                   videoName: string, thumbName: Option<string>, t1: nat, t2: nat, bucketUrl: string)
    requires thumbName.Some? ==> '/' !in thumbName.value
    requires thumbName.Some? ==>
      var ext := UploadForm.Extension(thumbName.value); forall i :: 0 <= i < |ext| ==> UriKept(ext[i])
    ensures var plan := UploadForm.Plan(userId, title, description, category, videoName, thumbName, t1, t2, bucketUrl);
      var row := plan[|plan| - 1].row;
      FilesToDelete(userId, row.video_path, row.thumbnail_path)
        == if thumbName.Some? then [plan[0].path, plan[1].path] else [plan[0].path]
  {
    if thumbName.Some? {
      ThumbnailPathRecovered(userId, bucketUrl, t2, thumbName.value);
    }
  }

  /** `(video) => video.id` */
  function VideoId(v: VideoRow): string { v.id }

  /** The dashboard's state. */
  class Dashboard {
    var videos: seq<VideoRow>
    var loading: bool

    constructor ()
      ensures videos == [] && loading
    {
      videos := [];
      loading := true;
    }

    /** `fetchVideos()`, given the store's reply: the rows replace the list unless the reply is
        an error, which is only logged. Returns the user id it asked for. */
    method FetchVideos(user: Option<string>, error: Option<StoreError>, rows: seq<VideoRow>) returns (asked: Option<string>)
      modifies this
      ensures user.None? ==> asked.None? && unchanged(this)
      ensures user.Some? ==> asked == user && !loading
      ensures user.Some? ==> videos == if error.None? then rows else old(videos)
    {
      if user.None? {
        return None;
      }
      asked := user;
      loading := true;
      if error.None? {
        videos := rows;
      }
      loading := false;
    }

    /** `handleDelete(videoId, videoPath, thumbnailPath)` for the signed-in user, given the
        answer to the confirmation and the errors of the row delete and of the file removal.
        Returns the id sent to the row delete and the paths sent to the file removal, if any. */
    method HandleDelete(userId: string, videoId: string, videoPath: string, thumbnailPath: Option<string>,
                        confirmed: bool, dbError: Option<StoreError>, storageError: Option<StoreError>)
      returns (deleted: Option<string>, removed: Option<seq<string>>, effects: seq<Effect>)
      modifies this`videos
      ensures !confirmed ==> deleted.None? && removed.None? && effects == [] && videos == old(videos)
      ensures confirmed ==> deleted == Some(videoId)
      ensures confirmed && dbError.Some? ==>
        removed.None? && effects == [Alert("Failed to delete post: " + dbError.value.message)] && videos == old(videos)
      ensures confirmed && dbError.None? ==>
        && removed == Some(FilesToDelete(userId, videoPath, thumbnailPath))
        && videos == Without(old(videos), VideoId, videoId)
        && effects == [Alert("Post deleted successfully.")]
    {
      if !confirmed {
        return None, None, [];
      }
      deleted := Some(videoId);
      if dbError.Some? {
        return deleted, None, [Alert("Failed to delete post: " + dbError.value.message)];
      }
      var files := [videoPath];
      if Truthy(thumbnailPath) {
        var name := LastPiece(thumbnailPath.value, '/');
        files := files + [userId + "/" + name];
      }
      assert files == FilesToDelete(userId, videoPath, thumbnailPath);
      removed := Some(files);
      if storageError.Some? {
        // logged only: the row is already gone
      }
      videos := Without(videos, VideoId, videoId);
      effects := [Alert("Post deleted successfully.")];
    }
  }

  /** After a successful delete the video is gone from the list, every other video is still
      listed in its order, and nothing else appears. */
  lemma DeleteRemovesExactly(videos: seq<VideoRow>, videoId: string)
    ensures var r := Without(videos, VideoId, videoId);
      && (forall i :: 0 <= i < |r| ==> r[i].id != videoId && r[i] in videos)
      && (forall i :: 0 <= i < |videos| && videos[i].id != videoId ==> videos[i] in r)
      && SubsequenceAt(r, videos, Kept(videos, KeyIsNot(VideoId, videoId)))
  {
    WithoutRemovesExactly(videos, VideoId, videoId);
  }
}
