/** The two localStorage keys of constants.ts. */
module Constants {

  const JWT_TOKEN_KEY: string := "aab_jwt_token"
  const USER_INFO_KEY: string := "aab_user_info"
}
