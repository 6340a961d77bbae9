/** `initialize.py`: the per-deck output directory and its `temp_audio` folder,
    each created only when missing. */
module Initialize {
  import opened Paths

  /** `os.path.join(os.path.dirname(os.path.abspath(f)), os.path.splitext(os.path.basename(f))[0])`:
      a directory beside the file, named after the file without its extension. */
  function VideoDir(cwd: string, videoFile: string): string {
    Join(Dirname(Abspath(cwd, videoFile)), Stem(Basename(videoFile)))
  }

  /** The filesystem after `if not os.path.exists(d): os.makedirs(d)`. */
  function EnsureDir(fs: set<string>, d: string): (r: set<string>)
    ensures d in r && fs <= r
  {
    if d in fs then fs else fs + Lineage(d)
  }

  /** Ensuring a directory a second time changes nothing, and nothing but the directory
      and its ancestors is ever added. */
  lemma EnsureDirIdempotent(fs: set<string>, d: string)
    ensures EnsureDir(EnsureDir(fs, d), d) == EnsureDir(fs, d)
    ensures forall q :: q in EnsureDir(fs, d) && q !in fs ==> q in Lineage(d) && |q| <= |d|
    ensures d in fs ==> EnsureDir(fs, d) == fs
  {
    LineageShort(d);
  }

  /** With a non-empty stem, the video directory is named after the stem and sits in
      the file's directory. */
  lemma VideoDirParts(cwd: string, videoFile: string)
    requires Stem(Basename(videoFile)) != []
    ensures Basename(VideoDir(cwd, videoFile)) == Stem(Basename(videoFile))
    ensures Dirname(VideoDir(cwd, videoFile)) == Dirname(Abspath(cwd, videoFile))
  {
    StemIsPlain(Basename(videoFile));
    JoinSplit(Dirname(Abspath(cwd, videoFile)), Stem(Basename(videoFile)));
  }

  /** `create_video_directory`: an existing directory is kept as it is. */
  method CreateVideoDirectory(videoFile: string, cwd: string, fs: FileSystem) returns (videoDir: string)
    modifies fs
    ensures videoDir == VideoDir(cwd, videoFile)
    ensures fs.paths == EnsureDir(old(fs.paths), videoDir)
  {
    var videoFileName := Stem(Basename(videoFile));
    var parentDir := Dirname(Abspath(cwd, videoFile));
    videoDir := Join(parentDir, videoFileName);
    if !fs.Exists(videoDir) {
      fs.MakeDirs(videoDir);
    }
  }

  /** `create_temp_audio_folder`: `video_dir/temp_audio`, created when missing. */
  method CreateTempAudioFolder(videoDir: string, fs: FileSystem) returns (tempAudioDir: string)
    modifies fs
    ensures tempAudioDir == Join(videoDir, "temp_audio")
    ensures fs.paths == EnsureDir(old(fs.paths), tempAudioDir)
  {
    tempAudioDir := Join(videoDir, "temp_audio");
    if !fs.Exists(tempAudioDir) {
      fs.MakeDirs(tempAudioDir);
    }
  }

  /** The temporary folder is a child of the video directory named `temp_audio`. */
  lemma TempAudioFolderParts(videoDir: string)
    requires IsDirShape(videoDir)
    ensures Basename(Join(videoDir, "temp_audio")) == "temp_audio"
    ensures Dirname(Join(videoDir, "temp_audio")) == videoDir
  {
    JoinSplit(videoDir, "temp_audio");
  }
}
