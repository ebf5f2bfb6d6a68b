/** Presigner selection (`application/factories/downloader_factory.py`). */
module DownloaderFactories {
  import opened Wrappers
  import opened Types
  import opened Downloader

  /** The factory with the presigner it builds. */
  datatype DownloaderFactory = DownloaderFactory(s3Downloader: S3Downloader)

  function NotImplemented(provider: Provider): Exception {
    Exception(NotImplementedError, "Downloader not implemented for provider=" + ProviderValue(provider))
  }

  /** `for_provider(provider)`: the S3 presigner for `aws`; every other provider is not implemented. */
  function ForProvider(f: DownloaderFactory, provider: Provider): (r: Result<S3Downloader, Exception>)
    ensures r.Success? <==> provider == Aws
    ensures r.Success? ==> r.value == f.s3Downloader
    ensures r.Failure? ==> r.error == NotImplemented(provider)
  {
    if provider == Aws then Success(f.s3Downloader) else Failure(NotImplemented(provider))
  }

  /** `azure` and `gcp` are refused, with the provider named in the message. */
  lemma {:induction false} ForProviderRefusesOthers(f: DownloaderFactory)
    ensures ForProvider(f, Azure) == Failure(Exception(NotImplementedError, "Downloader not implemented for provider=azure"))
    ensures ForProvider(f, Gcp) == Failure(Exception(NotImplementedError, "Downloader not implemented for provider=gcp"))
  {
    var prefix := "Downloader not implemented for provider=";
    assert NotImplemented(Azure).message == prefix + "azure" == "Downloader not implemented for provider=azure";
    assert NotImplemented(Gcp).message == prefix + "gcp" == "Downloader not implemented for provider=gcp";
  }
}
