/** The GasSettings asset: the three values the HTTP client is configured with. */
module Settings {

  class GasSettings {
    var deployId: string
    var authToken: string
    var sheetId: string

    constructor (deployId: string, authToken: string, sheetId: string)
      ensures this.deployId == deployId && this.authToken == authToken && this.sheetId == sheetId
    {
      this.deployId := deployId;
      this.authToken := authToken;
      this.sheetId := sheetId;
    }

    /** Replaces the three values */
    method Init(newDeployId: string, newAuthToken: string, newSheetId: string)
      modifies this
      ensures deployId == newDeployId && authToken == newAuthToken && sheetId == newSheetId
    {
      deployId, authToken, sheetId := newDeployId, newAuthToken, newSheetId;
    }
  }
}
