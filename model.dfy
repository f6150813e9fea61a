/**
 * The dataclass records of the signing package: a task for one file, the result of signing it,
 * and the signer's configuration, each with its defaults; and the ledger key of a task's file.
 */
module Model {
  import opened Common
  import opened Paths

  /** A completion callback, known by its identity only. */
  datatype Callback = Callback(id: nat)

  /** `SignTask`: the file, the key password, an optional output directory and callback. */
  datatype SignTask = SignTask(filePath: Path, keyPassword: string, outputDir: Option<Path>,
                               onComplete: Option<Callback>)

  /** `SignResult`: `processing_time` (a clock reading) is not part of the model. */
  datatype SignResult = SignResult(filePath: string, outputPath: string, success: bool, errorMessage: string)

  /** `SignerConfig`. */
  datatype SignerConfig = SignerConfig(keyFilePath: Path, certFilePath: Option<Path>, isSignLongType: bool,
                                       maxAttempts: int, retryDelay: int, maxWorkers: int)

  /** `SignTask(file_path, key_password)`: no output directory and no callback. */
  function NewSignTask(filePath: Path, keyPassword: string): (t: SignTask)
    ensures t.filePath == filePath && t.keyPassword == keyPassword
    ensures t.outputDir == None && t.onComplete == None
  {
    SignTask(filePath, keyPassword, None, None)
  }

  /** `SignResult(file_path, output_path, success)`: the error message is empty. */
  function NewSignResult(filePath: string, outputPath: string, success: bool): (r: SignResult)
    ensures r.filePath == filePath && r.outputPath == outputPath && r.success == success
    ensures r.errorMessage == ""
  {
    SignResult(filePath, outputPath, success, "")
  }

  /**
   * `SignerConfig(key_file_path)`: no certificate file, the long (CAdES-X Long) signature type,
   * ten attempts ten seconds apart, and one worker.
   */
  function NewSignerConfig(keyFilePath: Path): (c: SignerConfig)
    ensures c.keyFilePath == keyFilePath && c.certFilePath == None && c.isSignLongType
    ensures c.maxAttempts == 10 && c.retryDelay == 10 && c.maxWorkers == 1
  {
    SignerConfig(keyFilePath, None, true, 10, 10, 1)
  }

  /**
   * `get_formatted_path`: the parent folder's name and the file name joined by "/". The two
   * names can be read back from the key.
   */
  function FormattedPath(t: SignTask): (r: string)
    ensures var folder, name := Name(Parent(t.filePath)), Name(t.filePath);
      && |r| == |folder| + 1 + |name|
      && r[..|folder|] == folder && r[|folder|] == '/' && r[|folder| + 1..] == name
  {
    LedgerKey(t.filePath)
  }

  /**
   * Two tasks with the same formatted path are for files of the same name in folders of the
   * same name (folder names never hold the separator).
   */
  lemma FormattedPathIdentifiesFile(t: SignTask, u: SignTask)
    requires '/' !in Name(Parent(t.filePath)) && '/' !in Name(Parent(u.filePath))
    requires FormattedPath(t) == FormattedPath(u)
    ensures Name(t.filePath) == Name(u.filePath)
    ensures Name(Parent(t.filePath)) == Name(Parent(u.filePath))
  {
    LedgerKeyInjective(t.filePath, u.filePath);
  }
}
